# HTTP load generator client: command line, latency aggregates, dispatch

A Dafny model of the sequential logic in the load-generation client
`LoadGeneratorClient.cpp`. The client reads its command line, sends a configured
number of HTTP requests through libcurl, and folds the timings into four
process-wide aggregates. It sends those requests either with one thread per
request or through a fixed-size thread pool. The model covers three parts:

- **`Parse_Args`** (module `ArgParse`, file `parse_args.dfy`). This is the
  hand-written argument grammar `loadgen { -p <size> | -t | -<other> } <url> [<count>]`.
  - The four globals it writes (`user_url`, `user_num_req`, `type`, `pool_size`)
    form the record `Globals`. `Startup` holds their values at program start:
    a null URL, 1 request, per-request mode and pool size 0.
  - The three `invalid_argument` throws are the `Threw` variant of `Outcome`. A
    throw keeps the globals written up to that point.
  - `ScanFlags` and `Parse` are the reference definition of the grammar.
  - `ParseArgs` is the source's loop. It advances its index inside the body as
    well, and it is proved equal to `Parse`.
  - Arguments are read as C strings (module `CString`). Reading past the end
    yields the NUL terminator, so the empty argument is positional and a bare
    `-` is a flag with no letter. `isalpha` is an ASCII-letter test.
  - `atoi` skips C white space, reads an optional sign and then the longest run
    of digits. It gives 0 when there are no digits.
- **The aggregate update in `Create_Send_Request`** (module `Aggregates`, file
  `aggregates.dfy`).
  - The class `LatencyAggregates` holds the four statics: the sum of total
    latencies, the sum of times to first byte, and the minimum and maximum
    total latency.
  - `Record` takes what a libcurl transfer yields:
    - no handle: nothing happens;
    - a failed perform: the error message is thrown and no aggregate changes;
    - a completed sample: the sample is folded into the aggregates.
  - A ghost history `recorded` says what the fields equal: the fold of every
    recorded sample. Lemmas then state the sums, the bounds and
    order-independence of that fold.
- **`Run`** (module `Dispatch`, file `dispatch.dfy`).
  - A `switch` is modelled as its list of case arms.
  - `FallThrough` gives C's semantics without `break`: control enters at the
    matching label and runs every later arm.
  - `WithBreaks` gives the semantics with `break` after each arm.

Notes on the code, which the model follows:
- It keeps no request count and no failure count.
- It guards the aggregates with four mutexes, one per aggregate.
- It checks only that a pool size does not begin with a letter, not that it
  is numeric.
- Pool mode falls through into per-request mode (see Findings).

## Model

| member | source | states |
|---|---|---|
| `CString.DigitRun` | LoadGeneratorClient.cpp:209 | the digits `atoi` reads are the longest all-digit prefix: every character before the result is a digit, and the one at the result is not |
| `CString.SkipSpace` | LoadGeneratorClient.cpp:239 | `atoi` reads on from a suffix of its argument |
| `CString.SkipSpaceSkipsSpace` | LoadGeneratorClient.cpp:239 | what `atoi` skips is white space only, and it stops at the end or at a character that is not white space |
| `CString.SkipSpacePrefix` | LoadGeneratorClient.cpp:239 | any white-space prefix before a character that is not white space is skipped whole |
| `CString.Atoi` | LoadGeneratorClient.cpp:209 | `atoi` of an argument with no digit at all, such as an empty argument or a word, is 0 |
| `CString.AtoiReadsNumeral` | LoadGeneratorClient.cpp:239 | for any white space, an optional `+` or `-`, a non-empty run of digits (leading zeros allowed) and anything after it that does not start with a digit, `atoi` gives the value of the digits, negated after a `-` |
| `CString.AtoiWithoutDigits` | LoadGeneratorClient.cpp:239 | `atoi` gives 0 when no digit follows the white space and the optional sign, as for a lone or doubled sign or a word after a sign |
| `CString.AtoiOfDecimal` | LoadGeneratorClient.cpp:239 | the shortest decimal rendering of any natural number, followed by anything not starting with a digit, reads back as that number, and as its negation after a `-` |
| `ArgParse.ScanFlags` | LoadGeneratorClient.cpp:190-228 | the flag loop never writes the URL or the request count; it stops, at or after its starting index, only at `argc` or at an argument, reached where a flag is expected, that does not start with `-` (a pool size after `-p` is passed over, not stopped at); its only throw is the missing pool size, after pool mode is set |
| `ArgParse.Parse` | LoadGeneratorClient.cpp:183-187 | the "Minimum Usage" error is thrown exactly when there are fewer than two arguments, and then no global is written; a normal return always sets the URL to one of the arguments |
| `ArgParse.ParseArgs` | LoadGeneratorClient.cpp:177-241 | the imperative loop, which advances its index inside the body for a pool size, returns or throws exactly as the grammar `Parse` says, with the same globals |
| `ArgParse.ScanExtends` | LoadGeneratorClient.cpp:190-196 | arguments after a flag prefix that the scan consumes whole do not change how that prefix is scanned |
| `ArgParse.UrlAndCount` | LoadGeneratorClient.cpp:236-239 | after the flags, the first argument not starting with `-` is the URL; the count is `atoi` of the next argument, or stays unchanged when there is none; later arguments are never read, not even as flags |
| `ArgParse.DefaultCount` | LoadGeneratorClient.cpp:30 | from the startup globals, a URL with no count after it parses with a request count of 1 |
| `ArgParse.MissingUrl` | LoadGeneratorClient.cpp:230-234 | flags and pool sizes that use up every argument throw "Must specify URL & request count." |
| `ArgParse.PoolFlagTakesSize` | LoadGeneratorClient.cpp:201-210 | `-p` followed by an argument not starting with a letter sets pool mode, whatever came before, and consumes that argument as the pool size, so it never becomes the URL |
| `ArgParse.PoolFlagWithoutSize` | LoadGeneratorClient.cpp:206-216 | `-p` as the last argument, or before one starting with a letter, throws "Must specify pool size." with pool mode already set |
| `ArgParse.PerRequestFlag` | LoadGeneratorClient.cpp:219-222 | `-t` sets per-request mode, whatever came before |
| `ArgParse.OtherFlagSkipped` | LoadGeneratorClient.cpp:198-224 | any other flag, including a bare `-`, is passed over and changes no global |
| `Dispatch.FallThrough` | LoadGeneratorClient.cpp:118-131 | a switch without `break` runs nothing exactly when no label matches; otherwise it ends with the last arm's call |
| `Dispatch.FallThroughFromFirstMatch` | LoadGeneratorClient.cpp:118-131 | a switch without `break` runs the calls of the first matching arm and of every arm after it, in order |
| `Dispatch.WithBreaks` | LoadGeneratorClient.cpp:118-131 | a switch with `break` runs at most one arm, and only one whose label matches |
| `Dispatch.WithBreaksRunsFirstMatch` | LoadGeneratorClient.cpp:118-131 | a switch with `break` runs exactly the call of the first matching arm |
| `Dispatch.RunAsWritten` | LoadGeneratorClient.cpp:118-131 | per-request mode runs only the per-request strategy; thread-pool mode runs the pool strategy and then the per-request strategy; every mode ends with the per-request strategy |
| `Dispatch.RunExclusiveRunsOne` | LoadGeneratorClient.cpp:118-131 | with `break` restored, each mode runs exactly the one strategy it names |
| `Dispatch.PoolModeSendsTwice` | LoadGeneratorClient.cpp:88-131 | thread-pool mode sends twice what per-request mode sends; per-request mode sends the configured count, and a count of 0 or less sends nothing |
| `Aggregates.FoldSums` | LoadGeneratorClient.cpp:74-77 | after any run of samples, each running sum equals its start plus the sum of that timing over the recorded samples |
| `Aggregates.FoldBounds` | LoadGeneratorClient.cpp:78-81 | the minimum is at most every recorded total and its start, and it equals one of them; the maximum is the same from above |
| `Aggregates.MinAtMostMax` | LoadGeneratorClient.cpp:78-81 | once a sample has been recorded, the minimum does not exceed the maximum |
| `Aggregates.FoldOrderIrrelevant` | LoadGeneratorClient.cpp:74-81 | the aggregates depend only on the multiset of recorded samples, not on the order in which the requests completed |
| `Aggregates.LatencyAggregates.constructor` | LoadGeneratorClient.cpp:23-26 | the sums start at zero and the minimum and maximum at the given starting values, with nothing recorded |
| `Aggregates.LatencyAggregates.Record` | LoadGeneratorClient.cpp:44-86 | a completed transfer appends its sample to the history and moves the aggregates to the fold of that history, so that afterwards min ≤ that total ≤ max; a failed perform throws "curl_easy_perform() failed: " plus the reason and changes nothing; no handle changes nothing and throws nothing |

## Findings

| source | as written | input that shows it | evidently intended | confidence | as-written member | corrected member |
|---|---|---|---|---|---|---|
| LoadGeneratorClient.cpp:118-131 | the `thread_pool` arm has no `break`, so `Run_Thread_Pool` is followed by `Run_Thread_Per_Request`; pool mode sends every request twice, and only the second strategy prints, dividing sums of 2N samples by N | `loadgen -p 4 <url> 10` (mode `thread_pool`) | pool mode runs only the pool strategy | high; not executed | `Dispatch.RunAsWritten` | `Dispatch.RunExclusiveRunsOne` |

## Left out

- The libcurl transport, `timing_callback` and the chrono timestamps (LoadGeneratorClient.cpp:35-71) are foreign library calls and clock reads. A transfer is reduced to the `Transfer` value it yields.
- Threads are not modelled. This covers the thread creation and joins in `Run_Thread_Per_Request`, the whole `ThreadPool`, and the four mutexes. The model gives only the sequential effect of one locked update. Of ThreadPool.cpp the model keeps only that its constructor queues one task per request (ThreadPool.cpp:43), which `Dispatch.RequestsIssued` relies on.
- The pool with a size of 0 or less is not modelled: it starts no worker, and, with at least one request queued, its termination waits forever.
- An exception that escapes a request thread ends the process through `std::terminate`. This is not modelled; `Record` returns the message it would throw.
- `Print_results` and `Save_results` are console and CSV file output. They also divide doubles by the request count. Both are left out.
- Timings are `real`, not IEEE doubles. Sums of doubles depend on their order through rounding, so `Aggregates.FoldOrderIrrelevant` holds for exact arithmetic only.
- The starting minimum and maximum (`numeric_limits<double>::max()` and `::min()`) are constructor parameters, not double constants.
- `CString.Atoi` does not model `int` overflow: a value outside the range of `int` is undefined behaviour in C, and the model's result is unbounded.
- An argument here may contain the character NUL, which no C `argv` entry can. Such arguments are not excluded. The character reads and `atoi` stop at that NUL as C does, but a URL taken from such an argument keeps the characters after it, which C would cut off.
- `isalpha` on characters outside ASCII, and on negative `char` values, is not modelled.
- `main` only chains `Parse_Args`, the client constructor and `Run`. Its uncaught exception ends the process. It is not modelled beyond its parts.
- SimpleMultiThreadHTTPServer.py is a test server built from library classes and is not part of this model.
