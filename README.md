# libprocess HTTP primitives in Dafny

This project models the core of libprocess's `process/http.hpp`, the HTTP header that the Mesos
cluster manager uses to talk between nodes. It has three parts:

- **`Pipe`**: a one-writer, one-reader channel of string chunks. It streams chunked response bodies.
  All of its state is the shared `Data` record:
  - the states of the read end and the write end;
  - a FIFO of pending read promises;
  - a FIFO of buffered, non-empty chunks;
  - the one-shot `readerClosure` promise;
  - the failure message.
  The model is imperative. `Data`, `Reader`, `Writer`, `Pipe` and `Promise` are classes. Each
  `Reader`/`Writer` operation is one atomic method on the shared record. Ghost histories record
  which chunks were accepted and which were delivered, and `Data.Valid()` ties them to the queues.
- **Case-insensitive header keys**: `CaseInsensitiveEqual` and `CaseInsensitiveHash` are methods
  with the source's loops. The `Headers` hashmap they key is a list of entries with `Get` and `Put`.
- **`Response` construction**: `Response` is a datatype over the NONE/BODY/PATH/PIPE tag. Each
  constructor and subtype constructor is a function. The `URL` constructors are modelled the same way.

Modules: `Wrappers` (Option), `Ints` (`uint16`), `Text` (ASCII `tolower`, decimal `stringify`,
`strings::join` and a reader for joined lists), `Headers`, `Pipes`, `PipeProperties`
(whole-run properties of a pipe proved from the operations' contracts), `Responses`, `Urls`.

Modelling choices where the header leaves a point open:
- `Reader.close()` drops chunks that are still buffered. After the read end closes every read
  fails, so those chunks cannot be observed either way.
- A read on a closed read end fails with the message `"closed"`.
- `Writer.write("")` with both ends open returns true and changes nothing. The header comment
  (http.hpp:314-316) names a closed end as the only reason for `false`.
- `Writer.close()` gives `""` to every pending read, not only the oldest. So when several reads
  are pending at close, each of them sees end-of-file. `PipeProperties.DeliversInOrder` states
  this: after the chunks, every further read sees only the end marker.

## Model

| member | source | states |
|---|---|---|
| `Text.ToLower` | 3rdparty/libprocess/include/process/http.hpp:121 | `::tolower` folds exactly 'A'..'Z' to lower case and leaves every other character alone |
| `Text.Decimal` | 3rdparty/libprocess/include/process/http.hpp:411 | `stringify` of a size is a non-empty run of decimal digits with no leading zero |
| `Text.DecimalRoundTrip` | 3rdparty/libprocess/include/process/http.hpp:411 | parsing the decimal text of `n` gives `n` back, so `Content-Length` is readable |
| `Text.Join` | 3rdparty/libprocess/include/process/http.hpp:522-595 | `strings::join(", ", items)` is "" only for no items (or the single item ""), and it starts with the first item |
| `Text.ListItemsOfJoin` | 3rdparty/libprocess/include/process/http.hpp:586 | splitting `strings::join(", ", items)` at commas, and dropping the space after each comma, gives the items back, the empty list included, when every item is a non-empty token without a comma |
| `Text.UpToNul` | 3rdparty/libprocess/include/process/http.hpp:487 | a `std::string` built from `data()` is the longest NUL-free prefix of the text, and it is the whole text exactly when the text holds no NUL |
| `Headers.CaseInsensitiveEqual` | 3rdparty/libprocess/include/process/http.hpp:128-142 | true iff both keys have the same length and are equal position by position after `tolower` |
| `Headers.EqualIgnoringCaseIffFoldsEqual` | 3rdparty/libprocess/include/process/http.hpp:128-142 | two keys compare equal iff their lower-cased forms are the same string (both directions) |
| `Headers.EqualIgnoringCaseIsEquivalence` | 3rdparty/libprocess/include/process/http.hpp:128-142 | the comparison is reflexive, symmetric and transitive |
| `Headers.CaseInsensitiveHash` | 3rdparty/libprocess/include/process/http.hpp:115-125 | the loop returns seed 0 combined with each lowered character in order, through whatever combiner `hash_combine` is |
| `Headers.HashAgreesWithEquality` | 3rdparty/libprocess/include/process/http.hpp:115-142 | keys that compare equal get equal hashes, for every combiner |
| `Headers.Get` | 3rdparty/libprocess/include/process/http.hpp:192-195 | a lookup finds nothing iff no name equals the key ignoring case; otherwise it finds the value of such a name |
| `Headers.Put` | 3rdparty/libprocess/include/process/http.hpp:192-195 | assigning to a key overwrites its entry, or adds exactly one entry when no name matches |
| `Headers.GetPut` | 3rdparty/libprocess/include/process/http.hpp:192-195 | after `headers[k] = v`, every key equal to `k` ignoring case reads `v`, and every other key reads what it read before |
| `Headers.PutKeepsWellFormed` | 3rdparty/libprocess/include/process/http.hpp:192-195 | assignment never creates two entries whose names are the same key ignoring case |
| `Pipes.Data.constructor` | 3rdparty/libprocess/include/process/http.hpp:363-365 | a new record has both ends OPEN, no pending reads, no buffered chunks, no failure, and an unresolved `readerClosure`; it satisfies the invariant (chunks non-empty, failure present iff FAILED, pending reads only while both ends are open and nothing is buffered) |
| `Pipes.Reader.constructor` | 3rdparty/libprocess/include/process/http.hpp:306 | a reader handle shares the given record |
| `Pipes.Reader.Read` | 3rdparty/libprocess/include/process/http.hpp:282-286 | fails with "closed" once the read end is closed; otherwise returns the oldest buffered chunk and records it delivered; otherwise returns "" if the write end is CLOSED, the recorded failure if it is FAILED, and a new pending read if it is OPEN; "" only when the write end is CLOSED and nothing is buffered |
| `Pipes.Reader.Close` | 3rdparty/libprocess/include/process/http.hpp:288-291 | returns false iff the read end was already CLOSED; the read end is CLOSED afterwards; every pending read fails with "closed"; `readerClosure` resolves iff this call closed the read end while the write end was OPEN, and is otherwise unchanged |
| `Pipes.Writer.constructor` | 3rdparty/libprocess/include/process/http.hpp:347 | a writer handle shares the given record |
| `Pipes.Writer.Write` | 3rdparty/libprocess/include/process/http.hpp:314-317 | returns true iff both ends are OPEN; changes nothing when it returns false or the chunk is ""; otherwise hands the chunk to the oldest pending read, or buffers it when none is pending, and records it as accepted; no other pending read changes |
| `Pipes.Writer.Close` | 3rdparty/libprocess/include/process/http.hpp:319-322 | returns false and changes nothing if the write end was CLOSED or FAILED; otherwise the write end is CLOSED and every pending read receives "" |
| `Pipes.Writer.Fail` | 3rdparty/libprocess/include/process/http.hpp:324-327 | returns false and changes nothing if the write end was CLOSED or FAILED; otherwise the write end is FAILED, the message is recorded and every pending read fails with it |
| `Pipes.Writer.ReaderClosed` | 3rdparty/libprocess/include/process/http.hpp:329-332 | returns the shared `readerClosure` promise |
| `Pipes.Pipe.constructor` | 3rdparty/libprocess/include/process/http.hpp:352 | a new pipe owns a fresh record with both ends OPEN and both queues empty |
| `Pipes.Pipe.Reader` | 3rdparty/libprocess/include/process/http.hpp:354 | a new read handle on the pipe's record |
| `Pipes.Pipe.Writer` | 3rdparty/libprocess/include/process/http.hpp:355 | a new write handle on the pipe's record |
| `PipeProperties.DeliversInOrder` | 3rdparty/libprocess/include/process/http.hpp:242-261 | take any interleaving of reads and writes, then the writer's close or fail, then reads until the end. The reader sees exactly the non-empty chunks in write order, one read each. Every later outcome is the end marker: "" after close, the failure message after fail. "" never appears after fail |
| `PipeProperties.ReaderGivesUp` | 3rdparty/libprocess/include/process/http.hpp:246-250 | closing the reader while the writer is open resolves `readerClosed()`; a later write returns false and a second reader close returns false |
| `PipeProperties.ReaderClosesAfterWriter` | 3rdparty/libprocess/include/process/http.hpp:246-250 | closing the reader after the writer closed or failed never resolves `readerClosed()`, and a read then fails with "closed" |
| `Responses.Default` | 3rdparty/libprocess/include/process/http.hpp:394-396 | `Response()` is NONE with no headers, no status and no code |
| `Responses.WithCode` | 3rdparty/libprocess/include/process/http.hpp:398-402 | `Response(code)` is NONE, has no headers, and carries the code and its status line |
| `Responses.WithBody` | 3rdparty/libprocess/include/process/http.hpp:404-413 | `Response(body, code)` is BODY with that body, code and status line; its only header is `Content-Length`, holding the body size in decimal |
| `Responses.ContentLengthMatchesBody` | 3rdparty/libprocess/include/process/http.hpp:438-440 | looked up under any spelling of the name, `Content-Length` is all digits and parses to the body's length |
| `Responses.CodeOf` | 3rdparty/libprocess/include/process/http.hpp:145-187 | each plain subtype's status code is a 2xx-5xx code, and 200 belongs to `OK` alone |
| `Responses.Plain` | 3rdparty/libprocess/include/process/http.hpp:457-659 | `OK()`, `NotFound()` and the other plain subtypes are NONE, have no headers and carry their own code |
| `Responses.PlainWithBody` | 3rdparty/libprocess/include/process/http.hpp:457-659 | `OK(body)`, `NotFound(body)` and the rest are BODY with their code; `Content-Length` is their only header |
| `Responses.OkJson` | 3rdparty/libprocess/include/process/http.hpp:466-488 | `OK(json, jsonp)` is BODY with code 200. The streamed text is the printed JSON, or `jsonp(` + JSON + `);` when a callback is given. `Content-Type` is `text/javascript` with a callback and `application/json` without. `Content-Length` is the size of the whole text, and the body is the text cut at its first NUL. There are exactly two headers |
| `Responses.OkJsonLengthMatchesIffNulFree` | 3rdparty/libprocess/include/process/http.hpp:486-487 | `Content-Length` equals the size of the body exactly when the streamed text holds no NUL |
| `Responses.OkJsonNulInCallback` | 3rdparty/libprocess/include/process/http.hpp:473-487 | with the callback name "a\0b" and the JSON `{}`, the body is "a" while `Content-Length` is "8" |
| `Responses.OkJsonWholeBody` | 3rdparty/libprocess/include/process/http.hpp:466-488 | with the body taken from the whole text, the body is the JSON or `jsonp(` + JSON + `);` and `Content-Length` is its size for every callback name |
| `Responses.TemporaryRedirect` | 3rdparty/libprocess/include/process/http.hpp:501-508 | code 307, no body, and `Location: url` as the only header |
| `Responses.Unauthorized` | 3rdparty/libprocess/include/process/http.hpp:522-530 | code 401, no body, and `WWW-Authenticate` set to the challenges joined by ", " as the only header |
| `Responses.UnauthorizedWithBody` | 3rdparty/libprocess/include/process/http.hpp:532-542 | code 401 with a body; exactly the `Content-Length` and the joined `WWW-Authenticate` headers |
| `Responses.UnauthorizedRealm` | 3rdparty/libprocess/include/process/http.hpp:546-548 | code 401, no body, and `WWW-Authenticate: Basic realm="<realm>"` as the only header |
| `Responses.UnauthorizedRealmWithBody` | 3rdparty/libprocess/include/process/http.hpp:552-555 | code 401 with a body; exactly `Content-Length` and `WWW-Authenticate: Basic realm="<realm>"` |
| `Responses.MethodNotAllowed` | 3rdparty/libprocess/include/process/http.hpp:582-587 | code 405, no body, and `Allow` set to the methods joined by ", " as the only header |
| `Responses.MethodNotAllowedWithBody` | 3rdparty/libprocess/include/process/http.hpp:589-595 | code 405 with a body; exactly the `Content-Length` and the joined `Allow` headers |
| `Responses.AllowListsMethods` | 3rdparty/libprocess/include/process/http.hpp:579-595 | a 405 always has an `Allow` header (section 10.4.6 of RFC 2616), and reading it back gives exactly the allowed methods; an empty list gives an empty `Allow`, which section 14.7 reads as no method allowed |
| `Urls.EmptyUrl` | 3rdparty/libprocess/include/process/http.hpp:70 | `URL()` has every optional part absent and an empty path and query |
| `Urls.UrlWithDomain` | 3rdparty/libprocess/include/process/http.hpp:72-84 | a domain URL has the given scheme, domain, port, path, query and fragment, and no IP |
| `Urls.UrlWithIp` | 3rdparty/libprocess/include/process/http.hpp:86-98 | an IP URL has the given scheme, IP, port, path, query and fragment, and no domain |
| `Urls.UrlDefaults` | 3rdparty/libprocess/include/process/http.hpp:72-98 | when left out, the port is 80 whatever the scheme, the path is "/", the query is empty and there is no fragment |

## Left out

- The `std::atomic_flag` lock (http.hpp:369) is not modelled. It only serialises the pipe operations, and the model runs each operation as one atomic step.
- The model completes promises inside the operation's atomic step. Callbacks run by a completed promise, and any interleaving with them, are not modelled.
- Pipe method bodies are not in the header. The contracts follow the header's comments and the `Data` layout, with the modelling choices listed above.
- Discarding a future is not modelled. The header gives it no effect on the pipe.
- `Reader`/`Writer`/`Pipe` `operator==` compare record pointers. They are not modelled, because Dafny's reference equality on `data` is the same comparison.
- `Status::string` and the `statuses` table are defined outside this header. `StatusText.Reason(code)` stands for the status line of `code`.
- The numeric values of the `Status::` constants are also defined outside this header. The model uses the RFC 2616 codes they name.
- `boost::hash_combine` is a foreign call. It is the parameter `combine` of `CaseInsensitiveHash`, so every property holds for every combiner.
- `strings::join` is defined in stout, outside this header. `Text.Join` is the definition the model assumes for it: the items with the separator between neighbours.
- Each `char` of a Dafny `string` stands for one byte of a `std::string`, so `|body|` is `body.size()` in bytes. Text is not decoded, and multi-byte encodings are not modelled.
- `::tolower` is modelled as ASCII folding ("C" locale). Other locales are not modelled.
- Printing a `JSON::Value` (http.hpp:477) is a foreign library. `OkJson` takes the printed text as its parameter.
- `net::IP` is not part of this model. An address number stands for it.
- No constructor in the header builds a PATH or PIPE response. The `path` field and the PATH/PIPE tags are kept. The `reader` field (`Option<Pipe::Reader>`) is not modelled, because nothing in the header sets it.
- `Request`, `acceptsEncoding`/`acceptsMediaType`, `path::parse`, `encode`/`decode`, `query::encode`/`decode` and `URL`'s `operator<<` are declared in the header, but their bodies are not part of this model.
- `Connection`, `connect`, `get`/`post`/`requestDelete` and the `streaming::` variants are socket I/O over a network transport. Only their declarations are available, and they are not modelled.
- `src/common/http.cpp` (`serialize` and the `model(...)` overloads) is glue over protobuf and JSON libraries. It is not part of this model.

## Findings

| source | as written | input that shows it | evidently intended | confidence | as-written member | corrected member |
|---|---|---|---|---|---|---|
| 3rdparty/libprocess/include/process/http.hpp:486-487 | `Content-Length` is the size of the whole streamed text, but `body = out.str().data()` rebuilds the body from a `const char*`, so it stops at the first NUL | callback name "a\0b" with the JSON `{}`: body "a", `Content-Length` "8" | the body is the whole text (`body = out.str()`), so `Content-Length` is its size | medium, not executed | `Responses.OkJson`, `Responses.OkJsonNulInCallback` | `Responses.OkJsonWholeBody` |
