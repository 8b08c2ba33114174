/**
 * The QR code format: the generator joins an ad id and a location id with a
 * hyphen, and the tracker takes the code apart again with JavaScript's
 * `code.split('-')`, keeping only the first two pieces.
 */
module Codes {
  import opened Wrappers

  const Hyphen: char := '-'

  /** The value JavaScript's template literal prints for `undefined`. */
  const Undefined: string := "undefined"

  /** Number of occurrences of `c` in `s`. */
  function Count(s: string, c: char): nat
  {
    if |s| == 0 then 0 else (if s[0] == c then 1 else 0) + Count(s[1..], c)
  }

  /**
   * JavaScript's `s.split(sep)` for a one-character separator and no limit:
   * every occurrence of `sep` cuts, empty pieces are kept, and the empty
   * string gives one empty piece.
   */
  function Split(s: string, sep: char): (pieces: seq<string>)
    ensures |pieces| == Count(s, sep) + 1
    ensures forall i :: 0 <= i < |pieces| ==> sep !in pieces[i]
  {
    if |s| == 0 then [""]
    else if s[0] == sep then [""] + Split(s[1..], sep)
    else
      var rest := Split(s[1..], sep);
      [[s[0]] + rest[0]] + rest[1..]
  }

  /** JavaScript's `pieces.join(sep)`: the inverse of `Split`. */
  function Join(pieces: seq<string>, sep: char): string
    requires |pieces| >= 1
  {
    if |pieces| == 1 then pieces[0] else pieces[0] + [sep] + Join(pieces[1..], sep)
  }

  /** Joining the pieces of a split gives back the original string. */
  lemma {:induction false} JoinSplit(s: string, sep: char)
    ensures Join(Split(s, sep), sep) == s
  {
    if |s| == 0 {
    } else if s[0] == sep {
      JoinSplit(s[1..], sep);
      assert Split(s, sep) == [""] + Split(s[1..], sep);
      assert s == [sep] + s[1..];
    } else {
      var rest := Split(s[1..], sep);
      JoinSplit(s[1..], sep);
      var pieces := [[s[0]] + rest[0]] + rest[1..];
      assert Split(s, sep) == pieces;
      if |rest| == 1 {
        assert s == [s[0]] + s[1..];
      } else {
        assert pieces[1..] == rest[1..];
        calc {
          Join(pieces, sep);
          ([s[0]] + rest[0]) + [sep] + Join(rest[1..], sep);
          [s[0]] + (rest[0] + [sep] + Join(rest[1..], sep));
          [s[0]] + Join(rest, sep);
          [s[0]] + s[1..];
          s;
        }
      }
    }
  }

  /** A string without the separator is a single piece. */
  lemma {:induction false} SplitWithoutSeparator(a: string, sep: char)
    requires sep !in a
    ensures Split(a, sep) == [a]
  {
    if |a| > 0 {
      assert sep !in a[1..] by {
        assert forall k :: 0 <= k < |a[1..]| ==> a[1..][k] == a[k + 1];
      }
      SplitWithoutSeparator(a[1..], sep);
      assert [a[0]] + a[1..] == a;
    }
  }

  /** A separator-free head followed by the separator is cut off as the first piece. */
  lemma {:induction false} SplitAfterHead(a: string, sep: char, b: string)
    requires sep !in a
    ensures Split(a + [sep] + b, sep) == [a] + Split(b, sep)
  {
    var s := a + [sep] + b;
    if |a| == 0 {
      assert s == [sep] + b;
      assert s[1..] == b;
    } else {
      assert s[0] == a[0];
      assert s[1..] == a[1..] + [sep] + b;
      assert sep !in a[1..] by {
        assert forall k :: 0 <= k < |a[1..]| ==> a[1..][k] == a[k + 1];
      }
      SplitAfterHead(a[1..], sep, b);
      assert [a[0]] + a[1..] == a;
    }
  }

  /** Splitting a join of separator-free pieces gives back the pieces. */
  lemma {:induction false} SplitJoin(pieces: seq<string>, sep: char)
    requires |pieces| >= 1
    requires forall i :: 0 <= i < |pieces| ==> sep !in pieces[i]
    ensures Split(Join(pieces, sep), sep) == pieces
  {
    if |pieces| == 1 {
      SplitWithoutSeparator(pieces[0], sep);
    } else {
      SplitJoin(pieces[1..], sep);
      SplitAfterHead(pieces[0], sep, Join(pieces[1..], sep));
      assert [pieces[0]] + pieces[1..] == pieces;
    }
  }

  /** What the tracker extracts from a code (index.js line 90). */
  datatype CodeParts = CodeParts(adId: string, locationId: Option<string>)

  /**
   * `const [adId, locationId] = code.split('-')`: the first piece is always
   * there; the second is `undefined` when the code has no hyphen; any
   * further pieces are dropped.
   */
  function Parse(code: string): CodeParts
  {
    var pieces := Split(code, Hyphen);
    CodeParts(pieces[0], if |pieces| >= 2 then Some(pieces[1]) else None)
  }

  /** The code the QR generator builds for an ad and a location (index.js line 167). */
  function MakeCode(adId: string, locationId: string): (code: string)
    ensures Count(code, Hyphen) == Count(adId, Hyphen) + Count(locationId, Hyphen) + 1
  {
    CountConcat(adId, [Hyphen]);
    CountConcat(adId + [Hyphen], locationId);
    adId + [Hyphen] + locationId
  }

  /** `Count` is additive over concatenation. */
  lemma {:induction false} CountConcat(a: string, b: string)
    ensures Count(a + b, Hyphen) == Count(a, Hyphen) + Count(b, Hyphen)
  {
    if |a| == 0 {
      assert a + b == b;
    } else {
      assert (a + b)[0] == a[0];
      assert (a + b)[1..] == a[1..] + b;
      CountConcat(a[1..], b);
    }
  }

  /** A string is free of a character exactly when it counts none of it. */
  lemma {:induction false} CountZero(s: string, c: char)
    ensures Count(s, c) == 0 <==> c !in s
  {
    if |s| > 0 {
      CountZero(s[1..], c);
      assert s == [s[0]] + s[1..];
    }
  }

  /**
   * The parse, stated without `split`: the ad id is the text before the
   * first hyphen (the whole code when there is none); the location id is
   * the text between the first and the second hyphen, or the rest of the
   * code, and is absent exactly when the code has no hyphen.
   */
  lemma {:induction false} ParseIsFirstTwoSegments(code: string)
    ensures Hyphen !in Parse(code).adId
    ensures Parse(code).locationId.None? <==> Hyphen !in code
    ensures Parse(code).locationId.None? ==> Parse(code).adId == code
    ensures Parse(code).locationId.Some? ==>
      var head := Parse(code).adId + [Hyphen] + Parse(code).locationId.value;
      && Hyphen !in Parse(code).locationId.value
      && head <= code
      && (|head| == |code| || code[|head|] == Hyphen)
  {
    var pieces := Split(code, Hyphen);
    JoinSplit(code, Hyphen);
    CountZero(code, Hyphen);
    if |pieces| >= 2 {
      var head := pieces[0] + [Hyphen] + pieces[1];
      if |pieces| == 2 {
        assert Join(pieces[1..], Hyphen) == pieces[1];
        assert code == head;
      } else {
        assert pieces[1..][1..] == pieces[2..];
        assert Join(pieces[1..], Hyphen) == pieces[1] + [Hyphen] + Join(pieces[2..], Hyphen);
        assert code == head + [Hyphen] + Join(pieces[2..], Hyphen);
        assert code[|head|] == Hyphen;
      }
    }
  }

  /**
   * Round trip: parsing a generated code gives back exactly the ad id and
   * location id it was made from, and it does so only when neither id
   * contains a hyphen.
   */
  lemma {:induction false} ParseMakeCode(adId: string, locationId: string)
    ensures Parse(MakeCode(adId, locationId)) == CodeParts(adId, Some(locationId))
        <==> Hyphen !in adId && Hyphen !in locationId
  {
    var code := MakeCode(adId, locationId);
    if Hyphen !in adId && Hyphen !in locationId {
      SplitAfterHead(adId, Hyphen, locationId);
      SplitWithoutSeparator(locationId, Hyphen);
    }
    ParseIsFirstTwoSegments(code);
  }

  /**
   * A hyphen inside the ad id shifts the fields: the tracker takes the ad
   * id's first segment as the ad and its second segment as the location,
   * whatever location the code was generated for.
   */
  lemma {:induction false} HyphenatedAdIdMisparses(first: string, second: string, locationId: string)
    requires Hyphen !in first && Hyphen !in second
    ensures Parse(MakeCode(first + [Hyphen] + second, locationId)) == CodeParts(first, Some(second))
  {
    var rest := second + [Hyphen] + locationId;
    assert MakeCode(first + [Hyphen] + second, locationId) == first + [Hyphen] + rest;
    SplitAfterHead(first, Hyphen, rest);
    SplitAfterHead(second, Hyphen, locationId);
  }

  /**
   * The seed data's hyphenated ids break the round trip: the ad `fight-back`
   * at `Dewey-South-Poles` is tracked as ad `fight` at location `back`.
   */
  lemma SeedIdsDoNotRoundTrip()
    ensures Parse(MakeCode("fight-back", "Dewey-South-Poles")) == CodeParts("fight", Some("back"))
    ensures Parse(MakeCode("fight-back", "Dewey-South-Poles")) != CodeParts("fight-back", Some("Dewey-South-Poles"))
  {
    assert "fight-back" == "fight" + [Hyphen] + "back";
    HyphenatedAdIdMisparses("fight", "back", "Dewey-South-Poles");
  }

  /**
   * The path the tracker redirects to, `${adId}-${locationId}`, where an
   * absent location id prints as `undefined` (index.js line 131).
   */
  function DestinationPath(parts: CodeParts): string
  {
    parts.adId + [Hyphen] + parts.locationId.GetOr(Undefined)
  }

  /**
   * The redirect path reproduces the scanned code exactly when the code has
   * exactly one hyphen: with none it gains `-undefined`, with more it loses
   * everything from the second hyphen on.
   */
  lemma {:induction false} DestinationPathIsCode(code: string)
    ensures DestinationPath(Parse(code)) == code <==> Count(code, Hyphen) == 1
  {
    var pieces := Split(code, Hyphen);
    var path := DestinationPath(Parse(code));
    JoinSplit(code, Hyphen);
    if |pieces| == 1 {
      assert |path| > |code|;
    } else if |pieces| == 2 {
      assert Join(pieces[1..], Hyphen) == pieces[1];
    } else {
      assert pieces[1..][1..] == pieces[2..];
      assert Join(pieces[1..], Hyphen) == pieces[1] + [Hyphen] + Join(pieces[2..], Hyphen);
      assert |path| < |code|;
    }
  }
}
