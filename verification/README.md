# QR scan tracker — Dafny model

A model of the scan-tracking core of a small Express/MongoDB app that
attributes QR-code scans to an (ad, location) pair. It covers:

- the code format: the QR generator joins `adId + "-" + locationId`
  (`/generate-qr/:adId/:locationId`), and the tracker takes it apart with
  JavaScript's `code.split('-')`, keeping the first two pieces (`Codes`);
- the QR URL the generator prints, and how a request for that URL reaches
  the `:code` parameter of the tracking route (`Routing`);
- the fixed four-entry location-name table (`Locations`);
- session resolution from the `userSessionId` cookie, including minting a
  32-digit hex id from 16 random bytes and the cookie instruction (`Session`);
- the `Scan` schema and `save()`: `code` required and unique, `_id` unique,
  `timestamp` defaulting to the insertion time (`ScanStore`);
- `POST /track/:code` as a pure step function from (log, request) to
  (reply, cookie, new log), and runs of such steps (`Tracker`);
- the `GET /scans` listing: newest first, with each record projected to the
  public fields, or the 500 error when the read fails (`Listing`).

In the code a scan is a duplicate only when the same session has already
scanned the same code, and the store then enforces a unique index on
`code` across all sessions. As a result, a second session's first scan of a
code already in the log fails to save and gets a 500 reply. The comment at
models/Scan.js:7 says the index is "per session", but the schema declares
it over `code` alone; the model follows the schema (see
`Tracker.SecondSessionRejected` and `Tracker.AtMostOneAcceptPerCode`).

JavaScript details the model keeps:

- `split` keeps empty pieces.
- A code without a hyphen has an `undefined` location id. The redirect
  template prints that as the text `undefined`.
- `!userSessionId` treats an empty cookie like a missing one.
- Mongoose's `required` check on a String rejects the empty string.

Inputs the program obtains from outside become parameters of the step:
- the clock (`now`, in milliseconds);
- the 16 random bytes;
- the new document's ObjectId;
- whether the database fails to take a write, and whether a listing read fails;
- `NODE_ENV`;
- the client's IP address and User-Agent.

## Model

| member | source | states |
|---|---|---|
| `Codes.Split` | index.js:90 | `split('-')` yields one more piece than the code has hyphens, and no piece contains a hyphen |
| `Codes.JoinSplit` | index.js:90 | joining the pieces with `-` gives back the code: splitting loses no text |
| `Codes.SplitJoin` | index.js:90 | splitting a hyphen-join of hyphen-free pieces gives back exactly those pieces |
| `Codes.ParseIsFirstTwoSegments` | index.js:90 | the ad id is the text before the first hyphen (the whole code if none); the location id is the hyphen-free text after it up to the next hyphen or the end, absent exactly when the code has no hyphen; later segments are dropped |
| `Codes.MakeCode` | index.js:167 | the generated code has one hyphen more than the two ids together |
| `Codes.ParseMakeCode` | index.js:167 | parsing a generated code returns exactly (adId, locationId) if and only if neither id contains a hyphen |
| `Codes.HyphenatedAdIdMisparses` | index.js:90 | an ad id `x-y` is tracked as ad `x` at location `y`, whatever the real location |
| `Codes.SeedIdsDoNotRoundTrip` | seed.js:12 | the seeded ad `fight-back` with the seeded location `Dewey-South-Poles` is tracked as ad `fight` at location `back` |
| `Codes.DestinationPathIsCode` | index.js:131 | the redirect path `${adId}-${locationId}` equals the scanned code if and only if the code has exactly one hyphen |
| `Routing.TrackUrlRoutesCode` | index.js:167 | for protocol `http` or `https`, a plain host (a non-empty name of ASCII letters, digits, `.` and `-`, optionally followed by `:` and a numeric port), ids without `/`, `\`, `?`, `#`, `%`, tab, line feed or carriage return, and a location id that does not end in a space or control character, the `:code` a request for the printed URL delivers to `/track/:code` is exactly the generated code |
| `Routing.SlashInIdIsNotRouted` | index.js:167 | the ids are not escaped, so a `/` in the ad id gives a path that `/track/:code` does not match, when neither id holds a `.` or `%` that could form a dot segment a URL parser removes |
| `Routing.SlashedAdIdWitness` | index.js:167 | ad `a/b` at location `c` prints `/track/a/b-c`, which no tracking request receives |
| `Locations.LocationName` | index.js:61-66 | `location1`..`location4` name Quincy, Boston, Salem and Amherst, each exactly; every other or absent id has no name |
| `Session.HexEncode` | index.js:70 | the hex text has two lower-case hex digits per byte |
| `Session.HexRoundTrip` | index.js:70 | decoding the hex text gives back the bytes |
| `Session.HexEncodeInjective` | index.js:70 | distinct random bytes give distinct session ids |
| `Session.NewSessionId` | index.js:69-71 | a minted session id is 32 lower-case hex digits that decode to the 16 random bytes |
| `Session.Resolve` | index.js:92-105 | a non-empty cookie is reused verbatim and no cookie is set; a missing or empty one yields a fresh 32-digit hex id and a cookie instruction with httpOnly, maxAge 86400000 ms, and secure exactly in production |
| `ScanStore.Save` | models/Scan.js:3-19 | save succeeds if and only if the code is present and non-empty, the database takes the write, and neither the code nor the `_id` is already stored; a missing code fails validation; a failed write is reported; success appends one record carrying the document's fields, with the timestamp defaulting to `now`, and leaves every earlier record in place; it keeps codes and ids unique |
| `Listing.SortNewestFirst` | index.js:141 | the sorted log is a permutation of the log, ordered by timestamp descending |
| `Listing.ListScans` | index.js:141-151 | one item per stored scan, newest first; the items are exactly the records' projections to id, code, ad id, location id, location name and timestamp, with no field for session, IP address or user agent |
| `Listing.Scans` | index.js:139-158 | a failed read, and only that, answers the retrieval error; otherwise the reply lists every stored scan once, newest first, projected |
| `Tracker.Status` | index.js:111-134 | "already scanned" answers exactly 200, a redirect exactly 302 (the `res.redirect` default), a failed save exactly 500 |
| `Tracker.Track` | index.js:88-136 | a cookie is set exactly when the request had none or an empty one, and it is the session instruction: the id the scan is recorded under, httpOnly, one day, secure exactly in production; "already scanned" exactly when the log holds the code under the resolved session; a redirect exactly when the code is non-empty, the database takes the write, and neither the code nor the new `_id` is in the log; every refused save answers 500; otherwise the log is unchanged; a redirect appends exactly one record; the log stays valid |
| `Tracker.AcceptRecordsScan` | index.js:115-131 | an accepted scan appends the record of the full code, parsed ids, location name, session, IP, user agent and arrival time, and redirects to the destination plus `${adId}-${locationId}` |
| `Tracker.RedirectTarget` | index.js:131 | the redirect goes to the destination followed by the scanned code if and only if the code has exactly one hyphen |
| `Tracker.RepeatScanIsDuplicate` | index.js:108-112 | after an accepted scan, the same code scanned with the cookie the client then holds (the one the reply set, or else the one it sent) gets "already scanned", no cookie, and an unchanged log |
| `Tracker.SecondSessionRejected` | models/Scan.js:7 | when the code is already logged under another session, the scan fails with 500 and the log is unchanged |
| `Tracker.GeneratedCodeTracks` | index.js:167 | for protocol `http` or `https`, a plain host and hyphen-free ids that survive a URL path segment (as for `Routing.TrackUrlRoutesCode`), a POST to the printed QR URL delivers the generated code, which is recorded with exactly those ids and the location's name, and the redirect is to the destination plus that code |
| `Tracker.Run` | index.js:88-136 | handling requests one after another only ever appends to the log and keeps it valid |
| `Tracker.AtMostOneAcceptPerCode` | models/Scan.js:7 | across any sequence of requests, at most one scan of a given code is accepted, and none if the log already held it |

## Left out

- Express routing, the middleware, and the `GET /track/:code` debug route are transport plumbing. The step function itself also accepts an empty code, which Express never routes.
- Routing.TrackUrlRoutesCode: the URL is read literally. The clean-up a URL parser performs is not modelled; the lemma excludes the characters it affects instead. A URL parser reads `\` as `/`, deletes tabs and line breaks, and trims trailing spaces and control characters. Host validity beyond the plain-host shape is not modelled either: a host name the parser still rejects, such as an IPv4-looking name with a number out of range, is not excluded.
- Routing.SlashInIdIsNotRouted: dot-segment removal (`.` and `..` pieces, written plainly or percent-encoded) is not modelled; ids holding `.` or `%` are excluded instead.
- Routing.RouteCode: percent-decoding of the `:code` parameter is not modelled; a segment holding `%` is treated as not delivered. Case-insensitive route matching is not modelled either.
- Tracker.GeneratedCodeTracks: a phone that opens the QR URL sends a GET, which index.js:83-85 answers with debug text; the lemma is about a client that POSTs to that URL. The protocol, host and ids are restricted exactly as in the `Routing.TrackUrlRoutesCode` line, because the generator does not escape the ids and such ids do not arrive intact.
- Tracker.Track: a failing `Scan.findOne` (index.js:108) is not modelled. It sits outside the `try`, so the handler sends no reply for it. Only the `save()` failure is an input.
- ScanStore.Save: every database failure at write time is one input flag (`writeFails`); the model does not tell a dropped connection from a timeout.
- The three rate limiters (index.js:18-39) are left out. Their behaviour lives in express-rate-limit, which is not part of this model.
- The MongoDB connection, `process.exit`, and the secondary indexes on `adId`, `locationId` and `userSessionId` are left out. The indexes affect only performance.
- `crypto.randomBytes` is an input of 16 bytes. The ObjectId mongoose assigns is an input too.
- The QR image is left out, because it comes from the `qrcode` library. Only the URL string is modelled.
- `toLocaleString` is left out. Listed timestamps stay in milliseconds.
- `console.log` and `console.error` are left out.
- Reply bodies are left out. They are fixed message strings.
- `Listing.SortNewestFirst`: the order of records with equal timestamps is not stated, because MongoDB does not guarantee one.
- The race between `findOne` and `save` under concurrent requests is left out. Requests are handled one at a time. The unique index on `code` is the final arbiter, which makes `Tracker.AtMostOneAcceptPerCode` hold regardless.
- `locations[...]` on JavaScript prototype keys such as `toString` is left out. The table is a plain four-entry map.
- cookie-parser's `j:` JSON cookies are left out. A cookie is a plain string.
- seed.js and the Ad, Location and GeneratedPair models are left out. They are seeding I/O and schemas that the tracker does not use. Only the seed id strings appear, as witnesses.
