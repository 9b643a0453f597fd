# Verified models of the YDB Go SDK

A Dafny model of the parts of the SDK where mistakes are hardest to see: the session pool of
the table client, the decimal codec, the rewriting of query placeholders, the order of typed
values, the retry loop with its backoff, the runs of `DoTx`, the choice of connections and the
discovery repeater. `dafny verify dfyconfig.toml` checks the whole project.

## How it is organised

* **Session pool.** `SessionPool` gives the effect of every critical section of `Client.mu` as
  a function on the guarded fields. `TableClient.Client` is the object itself; each method is
  proved to do what its function says. `PoolProtocol` makes goroutines out of those sections:
  one step is a critical section, a channel rendezvous, a status access, or an entry to or exit
  from a session's `closeOnce`, and any number of borrowers, creators, closers and collector
  ticks interleave freely. `PoolInvariant` is the invariant, `PoolLists` to `PoolShutdown` prove
  that every step keeps it, `PoolSafety` holds the theorems about all runs, `PoolProgress`
  shows that the steps lead somewhere, `PoolDrain` that after Close every run comes to its end, and
  `PoolHistory` says what each operation does to sessions and waiters, and in which order.
* **Decimals.** `DecimalText` and `DecimalFormat` model `Parse` with its 32-bit counter and
  `Format` with its 40-byte buffer at every precision, `DecimalValue` says what a decimal text
  means, `DecimalParse` compares the two, `DecimalSyntax` says which texts are refused, and
  `DecimalBytes` models the 16-byte codec over 64-bit words.
* **Placeholders.** `SqlText` is a mode automaton that reads a query one character at a time;
  `SqlLexer.Lexer` is the state-function lexer, proved to yield the pieces that the automaton
  gives; `SqlParts` proves what those pieces are, and `SqlGrammar` what the automaton reads, by the
  tokens of a query. `BindArgs`, `BindRewrite`, `BindPipeline`, `BindNames` and `BindEndToEnd`
  follow arguments through naming, rewriting, declaring and binding; `BindLines` gives the
  rewritten query line by line, and `BindOutcomes` the errors.
* **Typed values.** `ValueOrder` is the comparison, `ValueLaws` its laws.
* **Retries.** `Backoff`, `Retry`, `Transaction` with `TransactionRuns`, and `Repeater`. What the
  server, the clock, the context and random numbers do is a script of choices, and every result
  holds for every script.
* **Connections.** `Balancer`; picks and shuffles are arbitrary.
* **Shared.** `Arith`, `Floats` (float64 rounding), `Numerals` (decimal digits) and `Ordering`
  (sorting).

Where the code and its comments differ, the model follows the code:

* redundant leading zeros use up the integer digits of `Parse`, and can wrap its counter around
  (`DecimalParse.LeadingZeroTraps`, `DecimalParse.LeadingZeroWraps`, with the exact condition in
  `DecimalParse.ParseIsIdealIff`);
* text that is no literal is accepted once a digit has decided the rounding
  (`DecimalSyntax.RestIsIgnored`, with the exact condition in `DecimalSyntax.RefusedIff`);
* the 40-byte buffer of `Format` is too small from precision 38 on: a number whose text needs
  more runs out of it, and a positive one of 40 fraction digits loses its dot
  (`DecimalFormat.SignHasNoRoom`, `DecimalFormat.DotIsLost`, with the exact conditions in
  `DecimalFormat.PrintsIff` and `DecimalFormat.RoundTrip`);
* `FromBytes` reads two's complement only when the bytes fill whole words or the number is not
  negative (`DecimalBytes.RawIsTwosValueIff`);
* a delay panics when the doubled slot overflows into a negative number or the bound of its
  random draw overflows; under a full jitter limit it panics instead when the float64 of the
  doubled slot is above it, which can happen above 2^53 nanoseconds
  (`Backoff.LargestSlotPanics`, `Backoff.RoundedUpPanics`, with the exact condition in
  `Backoff.LastsIff`);
* the backoff index of `Retry` is one too high for error code 0 at the start of a run
  (`Retry.IndexIff`);
* the forced wait of the repeater starts at 1 s, not at 500 ms, because it only happens after a
  failure (`Repeater.ForcedDelay`);
* an operation under `DoTx` that commits with its own query and then fails retryably runs again
  (`TransactionRuns.RetriedAfterInlineIff`, `TransactionRuns.InlineCommitRepeats`);
* a positional argument that brings a name is bound under that name: its placeholder may be
  left without a value or bound to another argument (`BindEndToEnd.NamedArgUnbound`,
  `BindEndToEnd.NamedArgsSwapped`, with the exact conditions in `BindEndToEnd.PositionalBindings`);
* comparison also accepts structs, booleans and intervals, and treats NaN as equal to every
  number (`ValueLaws.ChainsIff`).

## Model

| member | source | states |
|---|---|---|
| PoolSafety.StepKeeps | internal/table/client.go:121-612 | every atomic step of every goroutine (Get, creation, waiting, Put, session close, collector, Close) keeps the pool invariant |
| PoolSafety.RunKeeps | internal/table/client.go:121-893 | every state reachable from a new client, in any interleaving, satisfies the invariant |
| PoolSafety.NeverPanics | internal/table/client.go:794-893 | over all runs no consistency panic is reached, no wait channel is closed twice or sent on after its close |
| PoolSafety.LimitHolds | internal/table/client.go:289-339 | the index never exceeds the configured limit; creations in progress plus index, less the creations already in the index, stay within it, and the counter is the number of goroutines between reservation and release |
| PoolSafety.IdleIffIndexed | internal/table/client.go:794-893 | a session is in the idle list, and then exactly once, iff its index entry points at an idle element, which is the very element that holds it |
| PoolSafety.BorrowedAlone | internal/table/retry.go:68-87 | a session held by a goroutine is held by no other and is not idle |
| PoolSafety.PutNeverOverflows | internal/table/client.go:553-565 | the locked part of Put finds room for a session exactly when the client is open |
| PoolSafety.WaitQueueSound | internal/table/client.go:463-512 | while the client is open a queued channel is open, queued once and some waiter's; a recycled channel is open, not queued and in nobody's hands |
| PoolSafety.BuiltOnceUsedOnce | internal/table/client.go:191-221 | a built session is delivered once or closed once by its creator, never both, and neither only while it is still offered |
| PoolSafety.CreatorNeverStuck | internal/table/client.go:193-204 | a creator with a result always has a step: its caller takes the result, or what made the caller leave lets the creator leave |
| PoolSafety.CallerNeverStuck | internal/table/client.go:209-221 | a caller waiting for its session may leave or its creator is at work |
| PoolSafety.CloserNeverStuck | internal/table/session.go:172-210 | a goroutine at a session's closeOnce has a step, or another goroutine inside it has one |
| PoolSafety.LeavesOnce | internal/table/client.go:319-339 | a session leaves the index at most once, exactly once if it entered it and is gone, however many closes race |
| PoolSafety.DrainsCompletely | internal/table/client.go:572-612 | after Close, with no session held and no closer pending, index and idle list are empty and every pooled session left the index once |
| PoolProgress.MadeLentAndReturned | internal/table/client.go:359-566 | from every reachable state of an open client with room, nothing idle and nobody waiting, a goroutine can get a new session made, borrow it and leave it idle, with the counters restored |
| PoolDrain.SomeoneGoes | internal/table/client.go:121-612 | in every reachable state of a closed client, while some goroutine is not finished, some goroutine has a step that moves it |
| PoolDrain.StepFalls | internal/table/client.go:121-612 | after Close every step but a hint, the end of a context or another Close leaves the goroutines less to do |
| PoolDrain.EveryRunRests | internal/table/client.go:572-612 | however they are scheduled after Close, the goroutines take at most Total steps, at most 15 each; when only hints, ended contexts and repeated closes are left, which is exactly when every goroutine has returned, index and idle list are empty, no creation is counted and every session that was in the index was closed and left it once |
| PoolDrain.ComesToRest | internal/table/client.go:572-612 | from every reachable state after Close some run continues to a state where every goroutine has returned, index and idle list are empty, no creation is counted and every session that was in the index was closed and left it once |
| PoolDrain.RestsForEver | internal/table/client.go:572-612 | from there no continuation of the run changes pool, sessions or goroutines |
| PoolHistory.PutDoes | internal/table/client.go:553-565 | the locked part of Put closes the session if the client is closed, gives it to the first waiter at its select if there is one, dropping the waiters before it, and else appends it to the idle list as touched now, with all other index entries unchanged |
| PoolHistory.PutIsFresh | internal/table/client.go:721-745 | in every run, a session put at some time and idle since is started to be closed by a collector tick iff that is longer ago than the threshold |
| PoolHistory.TickCloses | internal/table/client.go:721-745 | a tick starts one goroutine that closes a session for exactly the idle sessions untouched for longer than the threshold |
| PoolHistory.EntryStays | internal/table/client.go:876-893 | over every run, an index entry stays as it is while it names the same idle element |
| PoolHistory.InOrder | internal/table/client.go:794-893 | over every run, idle list and wait queue are in the order in which sessions were put and waiters came |
| PoolHistory.GetTakesFirst | internal/table/client.go:382-390 | Get takes the session that was put first, or turns to creation iff none is idle |
| PoolHistory.NodeDecides | internal/table/client.go:389-395 | an idle session is lent iff its node is known, and else closed |
| PoolHistory.GivesUpIff | internal/table/client.go:380-381 | Get gives up exactly after 100 turns of its loop or when the client is closed |
| PoolHistory.TriesBounded | internal/table/client.go:380-381 | over every run no Get begins more than 100 turns |
| PoolHistory.GoesOnTrying | internal/table/client.go:463-512 | a waiter whose channel was closed or that receives nothing goes on with its loop, one that leaves for its context or the client returns, and so does the loop after closing a session without a node |
| PoolHistory.PutChecks | internal/table/client.go:540-550 | Put closes a session iff the client is closed, the session closing or closed, or its node gone |
| PoolHistory.CreatedIsTouched | internal/table/client.go:310-318 | a created session enters the index busy and touched now, with all other entries unchanged |
| PoolHistory.CloseWakes | internal/table/client.go:319-339 | a pooled session that is closed while the client is open leaves the index and tells the first waiter at its select to try again |
| PoolLists.ServeIs | internal/table/client.go:821-852 | the first parked waiter in queue order is served, those before it have their channels closed, and no other channel changes |
| PoolLists.WithoutIs | internal/table/client.go:863-873 | removing a list element keeps all others and their distinctness |
| PoolLists.PopKeepsIdle | internal/table/client.go:794-818 | taking the longest idle session keeps list and index consistent, leaves the others in order and yields a session iff the list is not empty |
| PoolLists.DequeueKeepsQueue | internal/table/client.go:501-511 | a waiter that leaves keeps the queue free of duplicates |
| PoolLists.EnqueueKeepsQueue | internal/table/client.go:463-466 | a channel that is open and not queued may join the queue |
| PoolLists.CloseAllIs | internal/table/client.go:592-595 | Close closes every queued channel once and no other |
| PoolLists.ExpiredIs | internal/table/client.go:726-743 | a collector tick selects exactly the idle sessions untouched for longer than the threshold |
| TableClient.Client.constructor | internal/table/client.go:52-77 | a new client is empty, open and limited by its configuration |
| TableClient.Client.NotifyWaiter | internal/table/client.go:821-852 | the loop over the wait queue does what Notify says of the fields |
| TableClient.Client.RemoveFirstIdle | internal/table/client.go:794-818 | the fields change as PopFirstIdle says, including the consistency panic |
| TableClient.Client.RemoveIdle | internal/table/client.go:863-873 | one session leaves the idle list and its index entry forgets the element; anything else panics |
| TableClient.Client.PushBackIdle | internal/table/client.go:876-893 | the session is the last of the idle list and its index entry is touched now; the fields change as PushIdle says, including the panics |
| TableClient.Client.PutSession | internal/table/client.go:553-565 | overflow, hand-over to a waiter or storage, as PutLocked says |
| TableClient.Client.ReservePlace | internal/table/client.go:289-295 | a place is reserved iff creations in progress and index are below the limit |
| TableClient.Client.RemoveSession | internal/table/client.go:319-339 | the onClose hook changes the fields as Unregister says |
| TableClient.Client.CollectExpired | internal/table/client.go:721-745 | the scan yields the expired sessions and changes nothing, or reaches its panic |
| TableClient.Client.CloseClient | internal/table/client.go:577-607 | Close changes the fields as Shutdown says and yields the idle sessions to close, once |
| DecimalText.Pow | internal/decimal/decimal.go:337-351 | square and multiply computes the power |
| DecimalText.ReadDigits | internal/decimal/decimal.go:114-148 | the digit loop ends as the scan function says |
| DecimalText.ReadRounding | internal/decimal/decimal.go:150-167 | the loop over the remaining digits decides the rounding |
| DecimalText.ParseText | internal/decimal/decimal.go:87-180 | Parse as the source computes it equals the function Parse, errors included |
| DecimalValue.HalfEvenIs | internal/decimal/decimal.go:150-174 | HalfEven is the one integer nearest to a fraction, the even one when two are |
| DecimalValue.RoundingIsHalfEven | internal/decimal/decimal.go:150-174 | rounding by the first remaining digit, parity and the tail is rounding half to even |
| DecimalParse.TrapIs | internal/decimal/decimal.go:141-147 | the wrapping digit counter stops a literal iff some digit past the leading zeros stands where it is zero |
| DecimalParse.ParseLiteral | internal/decimal/decimal.go:114-179 | the result for every signed literal: its scaled and rounded value, or infinity by the counter or by rounding |
| DecimalParse.ParseIsIdeal | internal/decimal/decimal.go:114-179 | without redundant leading zeros Parse returns value times 10^scale rounded half to even, and infinity of the sign exactly when that reaches 10^precision |
| DecimalParse.ParseIsIdealIff | internal/decimal/decimal.go:141-147 | for every literal, the exact condition under which Parse returns that, over its digits past the leading zeros, precision less scale, and whether it rounds up or carries |
| DecimalParse.CarryIs | internal/decimal/decimal.go:168-174 | rounding up reaches 10^precision iff every kept digit is a nine and they fill the precision |
| DecimalParse.LeadingZeroTraps | internal/decimal/decimal.go:141-147 | 05 with precision 1 parses as infinity |
| DecimalParse.LeadingZeroWraps | internal/decimal/decimal.go:141-147 | 05 with precision 1 and scale 1 escapes the overflow check |
| DecimalSyntax.RefusedIff | internal/decimal/decimal.go:87-180 | the exact texts that Parse refuses as syntax errors, and that it refuses a scale above the precision and nothing else |
| DecimalSyntax.RestIsIgnored | internal/decimal/decimal.go:150-167 | whatever follows the first digit past the scale does not matter unless that is a five |
| DecimalSyntax.SpecialsRead | internal/decimal/decimal.go:362-368 | inf and nan in either case, with a sign and whatever follows, are the special values |
| DecimalSyntax.SpecialsAre | internal/decimal/decimal.go:16-24 | infinity is 10^35, and not-a-number and error are the next numbers |
| DecimalFormat.FormatText | internal/decimal/decimal.go:184-259 | at every precision and scale Format as the source computes it, writing its buffer from the end, equals the function Format, which tells the printed texts, the error tag and the inputs that run out of the buffer |
| DecimalFormat.LoopsAreFormat | internal/decimal/decimal.go:209-258 | what the loops leave in the buffer is the text of the number if it fits 40 characters, the error tag exactly when the digits exceed the precision and those before the error fit, and else an overrun, except for the lost dot |
| DecimalFormat.PrintsIff | internal/decimal/decimal.go:209-258 | a number within the precision is printed as its text iff that has at most 40 characters, which up to precision 37 it always has |
| DecimalFormat.SignHasNoRoom | internal/decimal/decimal.go:253-256 | a negative number of 38 digits at precision and scale 38 runs out of the buffer |
| DecimalFormat.DotIsLost | internal/decimal/decimal.go:228-234 | a positive number of 40 digits at precision and scale 40 is printed without its dot |
| DecimalFormat.SpecialTexts | internal/decimal/decimal.go:184-220 | the special values are printed as inf, -inf, nan and -nan, and a number too long for the precision as the error tag |
| DecimalFormat.WriteNext | internal/decimal/decimal.go:219-234 | one turn of the digit loop leaves what the remaining digits still add |
| DecimalFormat.WriteDigits | internal/decimal/decimal.go:215-235 | the digits of a number are written from the last one, with the error tag and the overrun exactly where the function FillDigits has them |
| DecimalFormat.WriteZeros | internal/decimal/decimal.go:236-248 | the zeros of a short fraction and its dot, error and overrun included, for every precision and position |
| DecimalFormat.WriteSign | internal/decimal/decimal.go:249-258 | the zero before a leading dot and the sign, or an overrun, at every position |
| DecimalFormat.RoundTrip | internal/decimal/decimal.go:87-259 | at every precision Parse reads back what Format writes exactly for infinities, NaNs and numbers below 10^precision, other than 0 with scale 0, whose text has at most 40 characters |
| DecimalBytes.Not | internal/decimal/decimal.go:329-334 | flips every word in place |
| DecimalBytes.FlipPlusOneIs | internal/decimal/decimal.go:354-360 | flipping the words of a magnitude and adding one gives its complement to a whole number of words |
| DecimalBytes.ReadBytes | internal/decimal/decimal.go:53-77 | FromBytes as the source computes it equals the function FromBytes |
| DecimalBytes.RawIsTwosValueIff | internal/decimal/decimal.go:59-68 | the bytes are read as two's complement iff the sign bit is clear or they fill whole words |
| DecimalBytes.ShortBytesFail | internal/decimal/decimal.go:59-68 | the single byte 0x80 reads as minus infinity and not as -128 |
| DecimalBytes.PutWord | internal/decimal/decimal.go:284-288 | the bytes of one word, filled from the right |
| DecimalBytes.PutBytes | internal/decimal/decimal.go:277-298 | put into 16 zero bytes gives the bytes of the function Put, and runs out of the array exactly when Put does |
| DecimalBytes.PutIsTwosComplement | internal/decimal/decimal.go:277-298 | every number of 128 bits is written in big-endian two's complement |
| DecimalBytes.TwosRoundTrip | internal/decimal/decimal.go:81-83 | two's complement read back gives the number, with the sign in the first byte |
| DecimalBytes.CodecRoundTrip | internal/decimal/decimal.go:265-275 | up to precision 38 decoding what was encoded gives the number if it is below 10^precision, and else the infinity of its sign |
| DecimalBytes.CodecRoundTripIff | internal/decimal/decimal.go:265-298 | at any precision a number below 10^precision survives iff it fits 128 bits |
| DecimalBytes.WrittenAs | internal/decimal/decimal.go:265-275 | numbers within the precision, infinities, NaNs and the error value are written as themselves, any other number as the infinity of its sign |
| SqlLexer.Lexer.Quoted | internal/bind/sql_lexer.go:30-94 | the three quote states leave behind exactly the pieces the automaton still expects |
| SqlLexer.Lexer.LineComment | internal/bind/sql_lexer.go:96-115 | the same for one-line comments with their escapes |
| SqlLexer.Lexer.CommentTurn | internal/bind/sql_lexer.go:118-147 | one turn of the nested comment state follows the automaton, nesting depth included |
| SqlLexer.Lexer.BlockComment | internal/bind/sql_lexer.go:117-149 | nested comments leave what the automaton expects and end unnested |
| SqlLexer.Lexer.PositionalRaw | internal/bind/positional_args.go:74-109 | the raw state for question marks keeps found and expected pieces together equal to all pieces |
| SqlLexer.Lexer.NumericRaw | internal/bind/numeric_args.go:85-126 | the same for dollar references |
| SqlLexer.Lexer.Number | internal/bind/numeric_args.go:128-158 | a number becomes a reference, text when it runs into a letter, or a panic when no int holds it |
| SqlLexer.Lexer.Run | internal/bind/positional_args.go:22-30 | lexing terminates with the automaton's pieces, or panics iff a referenced number does not fit an int |
| SqlParts.PartsRefine | internal/bind/positional_args.go:74-109 | for any names, the pieces rendered give the text with its k-th question mark outside quotes, backticks and nested comments replaced by the k-th name, and there is one placeholder for each; what is outside is said by SqlGrammar.HolesAre |
| SqlParts.Rejoin | internal/bind/sql_lexer.go:30-149 | joined with question marks the pieces are the source, up to the character that stops the lexer |
| SqlParts.NeverStops | internal/bind/sql_lexer.go:42-47 | text without the replacement character is read to its end |
| SqlParts.RefsRefine | internal/bind/numeric_args.go:85-158 | the pieces rendered give the text with every dollar reference replaced and all else verbatim, such as $1abc and dollars in quotes or comments |
| SqlParts.PartsRefs | internal/bind/numeric_args.go:85-158 | the pieces refer to exactly the numbers that the text refers to |
| SqlGrammar.HolesAre | internal/bind/sql_lexer.go:30-149 | for every query made of quoted texts (in any of the three quotes), line comments with escapes, nested block comments and other characters: the placeholders are exactly the question marks among the other characters, named in order, and all else stays |
| SqlGrammar.NoRefsIn | internal/bind/numeric_args.go:85-126 | a dollar inside quotes or comments refers to nothing |
| SqlGrammar.RefReads | internal/bind/numeric_args.go:128-158 | after such a query a dollar and digits refer to their number iff no letter follows |
| BindArgs.CollectParams | internal/bind/params.go:172-233 | Params as the source computes it equals the function Params, sorted by name |
| BindArgs.NamesDiffer | internal/bind/positional_args.go:49-55 | the names of different positions differ |
| BindNames.UnnamedByPosition | internal/bind/params.go:174-228 | without a rewriting binding, unnamed arguments get the names of their positions as well |
| BindRewrite.NameHoles | internal/bind/positional_args.go:39-71 | the loop over the pieces yields the rendered text and the converted arguments, or the first error |
| BindRewrite.RewritePositional | internal/bind/positional_args.go:19-72 | positional rewriting equals the function Positional of the query's characters |
| BindRewrite.NameRef | internal/bind/numeric_args.go:46-67 | a reference is converted once, and every later one has the same name |
| BindRewrite.NameRefs | internal/bind/numeric_args.go:42-67 | the loop over the pieces yields the text, or the error of the first faulty reference, and fills the slots of referenced arguments |
| BindRewrite.Complete | internal/bind/numeric_args.go:69-75 | it succeeds iff every argument is referenced |
| BindRewrite.RewriteNumeric | internal/bind/numeric_args.go:19-83 | numeric rewriting equals the function Numeric of the query's characters |
| BindRewrite.NumericIff | internal/bind/numeric_args.go:38-83 | it succeeds iff the numbers referred to are exactly 1 to the argument count and every argument can be converted |
| BindOutcomes.ConvertedAs | internal/bind/params.go:141-170 | an argument becomes the parameter of its own name or position with the value under its names, or fails with that value's error or as unsupported |
| BindOutcomes.PositionalFails | internal/bind/positional_args.go:39-71 | positional rewriting fails with the error of the first argument that has a placeholder and cannot be sent, and else because the numbers differ |
| BindOutcomes.NumericFails | internal/bind/numeric_args.go:38-83 | numeric rewriting panics on a number above 2^63 - 1, else fails with the error of the first reference that is zero, too large or to an argument that cannot be sent, and else because an argument is not referred to |
| BindOutcomes.BoundAs | internal/bind/params.go:172-233 | without placeholders an argument is bound under its own name, that of its position, or as the set of parameters it is; an empty name and a set beside other arguments are errors |
| BindOutcomes.Unbound | internal/bind/bind.go:29-57 | without bindings the query stays as it is, and the first argument that cannot be bound decides |
| BindOutcomes.LastWins | internal/bind/bind.go:51-56 | of several parameters of one name the last is sent |
| BindPipeline.RewriteDeclare | internal/bind/auto_declare.go:16-56 | AutoDeclare as the source computes it equals the function Declare, whose text is given line by line by BindLines.PositionalLines |
| BindPipeline.Declares | internal/bind/auto_declare.go:28-40 | the declarations, sorted |
| Ordering.LeIff | internal/bind/auto_declare.go:40 | strings are sorted by their first different character, a prefix first |
| BindPipeline.RewriteQuery | internal/bind/bind.go:29-57 | the chain of bindings from the last to the first, then Params and the parameter map |
| BindNames.PositionalIff | internal/bind/positional_args.go:39-71 | rewriting succeeds iff placeholders and arguments are equally many and every argument can be converted; then the text reads the names of the positions |
| BindNames.AllBoundIff | internal/bind/params.go:141-170 | in the parameter map every position is bound iff its name is the name of some argument |
| BindNames.ByPositionIff | internal/bind/params.go:141-170 | arguments of different values are bound by position iff none brings the name of anything but its position |
| BindNames.KeepsIff | internal/bind/bind.go:44-57 | every parameter keeps its value in the map iff no two of one name differ |
| BindEndToEnd.SortGroups | internal/bind/bind.go:59-64 | any bindings are sorted into path prefixes, then AutoDeclare, then the rewriting ones, none lost or added |
| BindEndToEnd.SortBindings | internal/bind/bind.go:59-64 | any bindings are sorted into prefixes, every AutoDeclare, and all the rewriting ones; with one rewriting binding and at most one AutoDeclare that is the chain of a connection, whatever their order |
| BindNames.DeclaredOnce | internal/bind/auto_declare.go:36-47 | for all arguments that convert, the sorted declaration lines are theirs, and a name is declared once iff no other argument has it; with names without spaces that is so of the lines as text |
| BindNames.PositionsDeclared | internal/bind/auto_declare.go:36-47 | the names of the positions are each declared on exactly one line |
| BindEndToEnd.PositionalEndToEnd | internal/bind/bind.go:29-57 | through the sorted bindings, with and without AutoDeclare, the k-th question mark reads $pk and the map holds the parameters of the arguments; success iff counts agree and arguments convert |
| BindEndToEnd.PositionalBindings | internal/bind/bind.go:29-57 | after rewriting every $pk is bound iff it is some argument's name; if no argument brings another name $pk is bound to the k-th one and nothing else is bound, and for different values only then |
| BindEndToEnd.NumericEndToEnd | internal/bind/numeric_args.go:19-83 | through the sorted bindings every $k reads the name of the k-th argument's parameter and that name is bound, to that argument for every k iff no two parameters of one name differ; success iff the query refers to every argument and nothing else and all convert |
| BindLines.PositionalLines | internal/bind/auto_declare.go:16-56 | split at its newlines, the sent query is the pragmas of the path prefixes, a header, the sorted lines DECLARE name AS type; of all arguments, each once, an empty line, a comment and the rewritten query; unnamed arguments have exactly one line each |
| BindLines.NumericLines | internal/bind/auto_declare.go:16-56 | the same for numeric arguments |
| BindLines.PragmaLines | internal/bind/table_path_prefix.go:27-40 | every path prefix is a comment, its pragma and an empty line, in the order of the bindings |
| BindEndToEnd.NamedArgUnbound | internal/bind/positional_args.go:49-55 | the query ? with an argument named x leaves $p0 in the text without a binding |
| BindEndToEnd.NamedArgsSwapped | internal/bind/params.go:141-170 | the query ?? with arguments named p1 and p0 binds both placeholders, to each other's values |
| ValueOrder.UnwrapTypedValue | testutil/compare.go:35-45 | the loop yields the type and value under the optional types |
| ValueOrder.ExpandFields | testutil/compare.go:66-95 | the elements of tuples and structs, unwrapped |
| ValueOrder.ExpandList | testutil/compare.go:75-79 | the elements of lists, unwrapped |
| ValueOrder.CompareValues | testutil/compare.go:47-64 | comparison of unwrapped values as the source computes it equals the function Compare |
| ValueOrder.CompareElements | testutil/compare.go:126-168 | the loops over elements equal the lexicographic function |
| ValueOrder.CompareTop | testutil/compare.go:29-33 | the exported Compare unwraps both operands and compares them |
| ValueLaws.Antisymmetric | testutil/compare.go:47-64 | swapping the operands negates the result or keeps the error, for all types and values |
| ValueLaws.Transitive | testutil/compare.go:47-64 | without NaN, if a is not above b and b not above c, then a compared to c succeeds, is not above, and is equal only if both are, for any nesting, lengths and element types |
| ValueLaws.Lexicographic | testutil/compare.go:126-168 | one sequence is smaller iff at the first difference it ends or has the smaller element |
| ValueLaws.OptionalsVanish | testutil/compare.go:35-45 | any depth of optional types around a value, nested values or not, unwraps to what the value itself unwraps to |
| ValueLaws.IntegersInOrder | testutil/compare.go:193-243 | Compare orders integers, dates, times and intervals by the numbers in the field of their type, under any optional types, and an unset field as zero |
| ValueLaws.OptionalIs | testutil/compare.go:35-45 | a primitive value under any depth of optional types is read as the value |
| ValueLaws.BoolsInOrder | testutil/compare.go:283-296 | false is below true |
| ValueLaws.UuidsInOrder | testutil/compare.go:312-330 | UUIDs are in the order of their high halves, then of their low ones |
| ValueLaws.FloatsInOrder | testutil/compare.go:245-269 | floats and doubles are in their order between the infinities, and NaN is equal to all |
| ValueLaws.DyNumbersInOrder | testutil/compare.go:298-310 | DyNumbers are in the order of the numbers they spell, and a text that spells none is an error |
| ValueLaws.TextsInOrder | testutil/compare.go:271-281 | Compare puts strings and texts in byte order, equal only if identical |
| ValueLaws.UnsetReads | testutil/compare.go:245-296 | other unset fields read as false, zero and the empty text |
| ValueLaws.TypesMustAgree | testutil/compare.go:47-53 | values of different primitive types, or of a type without a comparator, cannot be compared |
| ValueLaws.TuplesInOrder | testutil/compare.go:66-168 | tuples and structs are compared element by element, each by its own type, the first difference or the end deciding; a tuple with too few values and a struct with too many panic |
| ValueLaws.ListsInOrder | testutil/compare.go:75-79 | lists likewise, by their element type |
| ValueLaws.KindsMustAgree | testutil/compare.go:47-64 | values of different kinds cannot be compared |
| ValueLaws.NullFirst | testutil/compare.go:101-112 | under any depth of optional types, Compare puts a null below every value of its type that is not null and equal to another null |
| ValueLaws.BytesInOrder | testutil/compare.go:271-281 | texts and byte strings are in byte order, equal only if identical |
| ValueLaws.ChainsIff | testutil/compare.go:245-269 | under Compare a double chains with every pair of doubles around it iff it is not NaN |
| Backoff.BaseIff | internal/backoff/backoff.go:98-104 | the delay before jitter is the slot doubled min(i, max(1, ceiling)) times iff 63 bits hold that |
| Backoff.BaseIs | internal/backoff/backoff.go:98-104 | otherwise it is that number wrapped around to 64 bits, although the power of two is wrapped before the product |
| Backoff.DoublesUpTo | internal/backoff/backoff.go:98-104 | with the numbers written out: one second for a slot that is not positive, doubled as often as the index says up to the ceiling, and at least once after the first |
| Backoff.ShareIs | internal/backoff/backoff.go:105 | the jitter limit fixes its absolute value as a share, all of it from one on |
| Backoff.LastsIff | internal/backoff/backoff.go:98-110 | for every slot, index and float64 jitter limit, a delay does not panic iff, under a full limit, the float64 of the doubled slot as 64 bits hold it is not above it (or, where that float exceeds a duration, what the platform makes of it is not), and otherwise the doubled slot is not negative and the bound of the draw does not overflow |
| Backoff.DrawnIff | internal/backoff/backoff.go:106-109 | for all 64-bit delays and fixed parts, the draw does not panic iff the fixed part is not above the delay and at most 2^63 - 2 below it, or at least 2^63 + 2 above it |
| Backoff.FixedFull | internal/backoff/backoff.go:105 | a full jitter limit fixes the float64 of the delay |
| Backoff.FixedLess | internal/backoff/backoff.go:105 | any smaller float64 limit fixes less than the delay, whatever its size and rounding |
| Backoff.RoundedUpPanics | internal/backoff/backoff.go:105-109 | a slot of 2^53 + 3 with a full jitter limit panics at index 0 |
| Backoff.LargestSlotConverts | internal/backoff/backoff.go:105-109 | a slot of the largest duration with a full jitter limit lasts iff the platform converts 2^63 to a positive number |
| Floats.FloatNearest | internal/backoff/backoff.go:105 | no float64 is nearer to a number than its rounding |
| Floats.ShareIsLess | internal/backoff/backoff.go:105 | a float64 below 1 times the float64 of a positive integer rounds to less than the integer |
| Floats.Fractions | internal/backoff/backoff.go:105 | 53 bits over any power of two up to 2^1074 are a float64 |
| Floats.Multiples | internal/backoff/backoff.go:105 | 53 bits times any power of two are one |
| Floats.TiesToEven | internal/backoff/backoff.go:105 | halfway between two of them the even one is taken |
| Backoff.LargestSlotPanics | internal/backoff/backoff.go:105-109 | a slot of the largest duration without jitter limit panics at index 0 |
| Backoff.DelayWithin | internal/backoff/backoff.go:98-110 | when the doubled slot fits 64 bits a delay lies between its fixed part, computed in floats, and the doubled slot, and takes every value between; up to 2^53 every delay comes out, and equals the doubled slot at full jitter limit |
| Retry.RunIs | retry/retry.go:267-334 | a run goes on over attempts that do not end it and stops after the first that does, with its outcome |
| Retry.DoneIff | retry/retry.go:267-334 | a run succeeds iff its last attempt does, and every attempt before that failed |
| Retry.RetriedErrors | retry/mode.go:16-28 | every attempt but the last failed, the context alive, with a retryable error, or with a conditionally retryable one of an idempotent operation |
| Retry.OutcomeIff | retry/retry.go:267-334 | how a run ends, by what its last attempt met: the context, and the type of its error |
| Retry.PauseIs | internal/wait/wait.go:31-49 | a failure waits for the backoff of its own kind, or not at all |
| Retry.Retry | retry/retry.go:255-334 | the loop: outcome, a panicking delay among them, and attempts of the run; every wait follows a failure that may be retried, with the index of the preceding failures of the same code and a delay that did not panic |
| Retry.PanicIff | retry/retry.go:308-330 | with a logarithmic backoff a retryable failure ends the run by a panic iff its mode has a backoff and, under a full jitter limit, the float64 of the slot doubled by its index is above it, and otherwise the doubled slot turns negative or the bound of the draw overflows |
| Retry.RunBeforeIs | retry/retry.go:308-310 | the index counts the longest block of equal codes directly before |
| Retry.IndexIff | retry/retry.go:255-310 | it is the number of directly preceding failures of the same code, except one more for code 0 when only code 0 came before |
| Retry.FirstZero | retry/retry.go:255-310 | the first failure already has index 1 if its code is 0 |
| Retry.WaitBounds | internal/wait/wait.go:15-49 | a wait of the loop lasts between the fixed part of its delay, computed in floats, and the slot doubled by its index, and neither its rounding nor its draw overflowed |
| Transaction.TxObject.Execute | internal/table/transaction.go:72-88 | a call outside the initial state is refused; a commit flag once set stays set and commits on success |
| Transaction.TxObject.CommitTx | internal/table/transaction.go:145-189 | state and answer as the function Commit says |
| Transaction.TxObject.RollbackTx | internal/table/transaction.go:203-228 | state and answer as the function Rollback says |
| Transaction.TryTx | internal/table/client.go:669-716 | one attempt with Get and Put around it, as the function Try says, events in order |
| TransactionRuns.TrySucceedsIff | internal/table/client.go:695-715 | an attempt succeeds iff its CommitTx does |
| TransactionRuns.TryRollsBack | internal/table/client.go:681-693 | a begun transaction is committed or has Rollback called, and the request is sent if nothing committed it |
| TransactionRuns.TryPutsOnce | internal/table/retry.go:68-87 | a session that was got is put exactly once, last |
| TransactionRuns.InlineFails | internal/table/transaction.go:145-147 | after a commit by Execute the attempt fails |
| TransactionRuns.TryFailsWith | internal/table/client.go:669-716 | the error of an attempt is that of Get, BeginTransaction, the operation or CommitTx, whichever comes first, joined with that of a failed rollback, and a refusal that is not retryable after an inline commit |
| TransactionRuns.InlineIff | internal/table/transaction.go:72-88 | an operation commits inline iff one of its calls succeeds after a commit was asked for, even by a call that failed |
| TransactionRuns.RollbackAgain | internal/table/transaction.go:203-228 | a failed rollback can be repeated, a successful one is refused, and a committed transaction needs none |
| TransactionRuns.NilIffCommitted | internal/table/client.go:668-718 | over every run DoTx returns nil iff the CommitTx of its last attempt did |
| TransactionRuns.NothingAfterCommit | internal/table/client.go:668-718 | no attempt follows one whose CommitTx succeeded, nor any commit when the operation does not commit by itself |
| TransactionRuns.RetriedAfterInlineIff | internal/table/transaction.go:83-85 | an attempt committed by Execute is retried iff the operation then returns a retryable error, the context lasts and the delay does not panic |
| TransactionRuns.InlineCommitRepeats | internal/table/transaction.go:83-85 | under any options there is a run that repeats an operation after its commit |
| Balancer.SortPrefer | internal/balancer/connections_state.go:127-150 | the preferred connections are those the filter allows and the fallbacks the rest, both in the given order |
| Balancer.ByNode | internal/balancer/connections_state.go:116-125 | every node has the last of its connections |
| Balancer.NewConnectionsState | internal/balancer/connections_state.go:21-39 | the usable connections are the preferred and fallback ones together, which are the given ones in order, and every given node has its last one |
| Balancer.Shuffle | internal/balancer/connections_state.go:96-103 | any swaps keep every index |
| Balancer.SelectRandom | internal/balancer/connections_state.go:84-114 | whatever the draws a usable connection is found if there is one, and else all count as failed |
| Balancer.GetConnection | internal/balancer/connections_state.go:45-71 | an unbanned preferred connection if one exists, else such a fallback, else a banned one, else none; and the exact failure count |
| Balancer.LastResortIsBanned | internal/balancer/connections_state.go:68-70 | what the last resort yields is banned |
| Balancer.ChoiceByState | internal/balancer/connections_state.go:152-161 | by the states: an online, created or offline preferred connection, else such a fallback, else a banned one, and nothing iff all are unknown or destroyed |
| Balancer.PinnedByState | internal/balancer/connections_state.go:45-60 | an endpoint is used iff its connection is online, created, offline or banned |
| Balancer.GetConn | internal/balancer/balancer.go:383-400 | discovery is forced iff every preferred connection failed, or with none preferred iff there are fallbacks and all failed |
| Repeater.FailuresAre | internal/repeater/repeater.go:200-210 | the count is of the failures since the last success |
| Repeater.ForcedDelay | internal/repeater/repeater.go:172-177 | after k failures the forced delay is exactly 500 ms doubled min(k, 6) times, at most 32 s |
| Repeater.Worker.WakeUp | internal/repeater/repeater.go:141-166 | a failed task leaves the force token, a successful one takes it, a finished context touches nothing |
| Repeater.Worker.WaitForceEvent | internal/repeater/repeater.go:182-198 | no wait without failures, else one of the exact delay |
| Repeater.Worker.ProcessEvent | internal/repeater/repeater.go:200-210 | the force index counts the consecutive failures again, and the wake-up is recorded |
| Repeater.Worker.Run | internal/repeater/repeater.go:212-223 | at every loop head the force index is the number of consecutive failed wake-ups, and a positive one means a pending token or a finished context; while the context lasts every turn runs the repeated function once, and afterwards every turn but a cancelled wait |

## Left out

- Get may return a session that the collector has marked closing, and a waiter may queue while a session becomes idle: both are behaviours of the code that the pool model has too, so nothing is claimed against them.
- Contexts, timeouts, node checks and server answers in the pool: arbitrary choices of the environment.
- `KeepAlive`, `CreateSession` outside the pool, panicking operations with a panic callback: not in the step set.
- Fairness of an open pool: that some run makes, lends and returns a session is proved, not that every scheduler finds it.
- `Append`, `size` and `ensure` of the decimal package, and 32-bit words: would add easy members or another word size.
- Aliasing of the shared infinity values that `Parse` returns: results are values here.
- `toValue` and the text of YQL types: an argument stands for what toValue makes of it.
- Ties in `sort.Slice`: equal names keep their order in the model; the theorems about names do not depend on it.
- Byte positions and invalid UTF-8: text is a sequence of characters, and the replacement character stands for every decoding error.
- Parameter names taken from `QueryParameters` maps: given in some order; an empty name panics as in the source.
- Rounding of DyNumber texts to 127 bits: a text carries the number it spells.
- A jitter limit that is not a number: its product with a delay has no value here.
- `TypeAny` as the backoff type of an error, which no error has.
- The error that joins a failed rollback with its cause: its retry mode is arbitrary.
- `endpointsDiff`, discovery requests and connection state changes: a choice is made over one snapshot.
- gRPC, tracing, logging, metrics, credentials and configuration.
