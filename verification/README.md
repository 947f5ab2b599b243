# Verification of koh

koh is a remote shell with a file sync. This project models the parts of it whose correctness does not rest on I/O, as
Dafny programs and state machines, and proves what each is for. It is checked as a whole by
`dafny verify dfyconfig.toml`.

Code that changes things in place is a class or a method with loops, proved equal to a function of the old state; what
koh promises is then proved of those functions, over every input and every run. Nothing here was executed.

## Parts

- **The sync protocol** (`Files`, `Walk`, `Course`, `Receive`, `Closing`, `Landing`, `LandFacts`, `Heads`, `HeadSteps`,
  `EntrySteps`, `Headers`, `Settling`, `EndSteps`, `FileSteps`, `DataSteps`, `Counting`, `Protocol`, `Tally`, `Ends`,
  `Runs`, `Flow`, `Ending`, `Converge`, `Cut`, `DryRun`, `Order`, `Examples`, `Selection`, `Resume`, `Modes`, `Names`,
  `Success`). The file system is a map from paths to entries, the
  streams are sequences, and both ends are steps of one machine (`Ends.Do`) whose steps interleave freely and may be cut
  anywhere. `Landing` says what the destination is after any part of the walk and any number of files; `Runs.RunSound`
  proves that every run keeps it; the theorems of `Flow`, `Converge`, `Cut`, `DryRun` and `Order` follow, and `Ending`
  proves that every run ends. `Selection`, `Resume`, `Modes` and `Success` say of the two trees alone what is sent, from
  which byte, with which modes, and when a copy succeeds. `Receiver`
  and `Landed` are the receiving end as it is written, `Sender` the sending end, each tied to the machine.
- **The exclude patterns** (`Glob`, `Patterns`): the greedy matcher against the meaning of patterns, and that against how
  they are written.
- **The output filter** (`Utf8`, `Judge`, `Stream`, `Refeed`, `Questions`): the byte machine over ECMA-48 control
  sequences and strings, refining a function of all bytes read, and what of any output it lets through.
- **The screen pair** (`Terminal`, `Redraw`, `RedrawLines`, `RedrawFails`, `RedrawWhole`, `Painter`, `Looks`, `Damage`,
  `Display`, `Drawing`): one small terminal semantics, a redraw compiled for it, and an overlay painted and taken back.
- **Prediction** (`Predict`, `Predictor`, `Wide`, `Trust`, `Echo`, `Grading`): the epochs of local echo, over runs of keys
  and frames, and the guesses against a terminal that gets the echo.
- **Jobs** (`Logs`, `Follow`, `Awaited`): bounded logs, followers and text waits beside a running job.
- **Sessions** (`Coalesce`, `Epochs`, `Pictures`): messages joined, and epochs of screens through lag and redraws.
- **Handshakes** (`Handshakes`, `Flood`): the bounded table and what a flood costs whom.

## Found on the way

Where the code does not do what one would expect everywhere, the exact condition is proved.

- A copy cut short and run again leaves a directory the cut copy had made, and not closed, with mode 0700, unless times
  are kept or that is its mode: the second run did not make it, so it sets no mode (`Cut.RerunSame`,
  `Cut.RerunConverges`, `Examples.LeftOpenHappens`).
- `--delete` removes an excluded entry with a directory above it that is itself neither sent nor excluded
  (`Converge.ExcludedStays`, `Examples.ExcludedGoes`).
- A part is not gone on from where a file of the source's size, but of other content, stands at the file's name
  (`Resume.SaidIsSo`). Its name is not noted either: with `--delete`, something there that is no file goes if the directory
  ends before the file's bytes come, and refuses them if not, so two runs over the same trees may end differently
  (`Success.OrderDecides`).
- The receiver's bound on depth never refuses a copy: the sender's is met first (`Success.Succeeds`).
- A sender that fails in the middle of a file says so, and is reported as malformed (`Flow.FailureHeard`,
  `Examples.CalledMalformed`).
- The filter passes the first of two ESCs, so half a sequence may pass, and, if the second is taken back by a CAN or SUB,
  a whole question that by itself is dropped (`Refeed.EndsBetweenIff`, `Refeed.LoneEscPasses`). An ENQ inside a sequence
  passes once and is dropped when it is fed again (`Refeed.PassesWholeIff`).
- A redraw loses a soft wrap that is followed by nothing, a synchronized frame that is open, and the waiting of a cursor
  on a wide glyph or with autowrap off; with history, a glyph whose width terminals differ on makes the next move of its
  row land on a wrong row (`RedrawWhole.RebuildsExactly`, `Painting.NoHistoryStays`).
- After Enter on the last row the screen scrolls; the guesses say where the cursor goes, not that (`Echo.GuessIsEcho`).
- `koh logs --tail 0` on a log that ends inside a line says one line fewer goes before (`Logs.TailIsLastLines`).

## Model

| member | source | states |
|---|---|---|
| Glob.Matches | src/sync/glob.rs:79-115 | The greedy matcher that goes back to the last star only says yes exactly when some assignment of slash-free runs to the stars makes the pattern spell the text, in at most (pattern + 1)(text + 1) passes |
| Glob.Class | src/sync/glob.rs:119-155 | A bracket class, read by its loop, matches a byte and ends exactly as the token it stands for |
| Glob.LaterRunSuffices | src/sync/glob.rs:79-115 | Why the last star is enough though a star may not cross a slash: what an earlier run could spell by taking more, the later one can |
| Glob.Excludes | src/sync/glob.rs:34-41 | A pattern with a slash is matched against the whole path, one without against the name, by the meaning of patterns |
| Glob.AnyExcludes | src/sync/glob.rs:63-65 | An entry is excluded exactly when some pattern of the list excludes it |
| Patterns.MeansParts | src/sync/glob.rs:79-155 | A pattern written of stars, question marks, bytes and sets, each set by its listed bytes and spans and negated or not, matches exactly the texts its parts spell one after another; said without tokens |
| Walk.StepTodo | src/sync/send.rs:186-255 | Each step of the walk takes exactly one entry, and what is in it if it is a file or link, off what is still to be sent |
| Walk.NextPath | src/sync/send.rs:186-255 | The entry sent next is the one the sources have at the path it lands at, in the directory open last |
| Selection.SentIff | src/sync/send.rs:186-255 | An entry is sent, and lands at a path, if and only if a source landing at its top holds it by those names and no name on the way, below the top, is excluded by itself or by its path from the top |
| Selection.WrittenSplits | src/sync/send.rs:240-253 | The path patterns are matched against is the names, a slash between each two |
| Course.AllEnded | src/sync/send.rs:130-138 | When the walk is over every directory ended and every file header went |
| Course.StepEnded | src/sync/send.rs:254 | Only an End ends a directory, the one it names |
| Closing.NoneReadyAllBusy | src/sync/receive.rs:474-488 | When no waiting directory can close, each is held by a file under way, however deep: two never wait for each other |
| Closing.CloseReadyIs | src/sync/receive.rs:474-488 | The loop closes exactly the waiting directories with nothing under them under way, each once, whatever order it finds them in |
| Closing.NoneLeft | src/sync/receive.rs:168-178 | With nothing under way the reference-count test drains the whole forest |
| Settling.ClosingKeeps | src/sync/receive.rs:474-488 | After closing, modes, times and the directories still waiting are the ones the walk and the finished files call for |
| Headers.HeadStep | src/sync/receive.rs:344-443 | Whatever header a conforming sender sends next lands as the trees say and is answered as they say, or stops the copy with nothing lost; never as malformed |
| Headers.ComesFails | src/sync/receive.rs:393-443 | A header that fails leaves the entries untouched and is not called malformed |
| EndSteps.EndStep | src/sync/receive.rs:446-472 | A directory End keeps the state what the trees say, with files under it still under way or not |
| EndSteps.BelowUnsent | src/sync/receive.rs:446-472 | Of the entries outside the parts, exactly those neither sent nor excluded go with the directory |
| EndSteps.PartStays | src/sync/receive.rs:446-472 | A part a pending file may be resumed from is never removed |
| FileSteps.SameStep | src/sync/receive.rs:623-647 | A file said to be the same is done: its content stays, its directories come closer to closing |
| FileSteps.DiffersStep | src/sync/receive.rs:613-622 | In a dry run a file said to differ is done and changes nothing |
| DataSteps.DataStep | src/sync/receive.rs:567-592 | The first byte of a file goes on from its part only where the sender said, the part then holding exactly the bytes before |
| DataSteps.ChunkStep | src/sync/receive.rs:551-565 | Each chunk extends the part to a longer beginning of the source file |
| DataSteps.SentStep | src/sync/receive.rs:567-611 | Once all bytes came the part takes the place of the file, whole, with its mode and time, or the copy stops with the file as it was |
| Protocol.ItemStands | src/sync/receive.rs:279-340 | Item by item: from the state for any point of the copy, an item that may come next brings the state for the next point, the end, or a stop with nothing lost |
| Protocol.LeadsGrows | src/sync/send.rs:257-336 | The items a sender writes only ever move the copy on |
| Tally.ItemComes | src/sync/receive.rs:594-611 | The counts after each item are a sum over the two trees, in whatever order files are answered |
| Runs.RunSound | src/sync/send.rs:130-336 | Every run of the two ends, their buffers and streams, headers, answers and bytes interleaved freely and cut anywhere, keeps the receiver where the items sent so far lead |
| Flow.WindowHolds | src/sync/send.rs:258-299 | In every run neither end holds more than 64 files and the answers on their way never exceed the bound of their channel |
| Flow.HeaderHasRoom | src/sync/receive.rs:491-505 | A file header never reaches a receiver with a full window or a taken id |
| Flow.NoDeadlock | src/sync/send.rs:274-299 | A sender waiting for an answer has it in flight, or its header handed on and unread, or the receiver stopped |
| Flow.NeverStuck | src/sync/send.rs:130-138 | Until the receiver stops some end can take a step other than giving up, but at a source the sender refuses |
| Ending.EveryStepCounts | src/sync/send.rs:130-336 | Each step of either end or stream, but handing on nothing, takes some of what is left: of the walk, the files owed an answer, the bytes going, the items on their way |
| Ending.RunsEnd | src/sync/send.rs:87-127 | So no run is longer than a number its sources give, whatever the interleaving |
| Ending.ComesToEnd | src/sync/send.rs:87-127 | And from wherever a run is, steps that neither give up nor cut bring the receiver to its stop, but at a source the sender refuses |
| Flow.MalformedOnlyMidFile | src/sync/receive.rs:551-565 | The receiver calls a conforming sender malformed in one case only, that it gave up in the middle of a file |
| Flow.FailureHeard | src/sync/receive.rs:551-565 | And there it does: the failure item of the sender is reported as malformed exactly mid-file, else as itself |
| Flow.IdsApart | src/sync/send.rs:257-272 | File ids counted in 32 bits never collide within a window |
| Success.Succeeds | src/sync/receive.rs:357-673 | Every run not cut, whose sender does not give up, that comes to its stop: it succeeds if nothing in the two trees stands in the way of what is sent; fails, with a reason that holds at some path sent, if something does, but for what is at the name of a part not asked about; and never succeeds with a source the sender refuses |
| Success.SucceedsIff | src/sync/receive.rs:357-673 | So, with no such name in the way, it succeeds if and only if: no directory is sent where a symlink is, nor without delete where a file is; no file or symlink where a directory is; names held at once within their bound; nothing but a file at the part name of a file whose bytes come |
| Success.OrderDecides | src/sync/receive.rs:446-592 | With such a name in the way the order decides: before the End of its directory the bytes are refused, after it taken |
| Success.WalksUnlessRefused | src/sync/send.rs:141-236 | The walk of a sender stands still short of its end if and only if a source is of no kind it sends, or a directory deeper than its bound |
| Success.HeadJudged | src/sync/receive.rs:393-549 | A header goes on exactly past nothing in its way by the trees, and is refused only for what is |
| Success.DataJudged | src/sync/receive.rs:567-592 | The bytes of a file are taken past nothing stuck at the name of its part, and refused only for what is there |
| Names.HeadNames | src/sync/receive.rs:357-368 | The names noted for delete, counted over the open directories, are those the trees say, within the bound exactly when they are |
| Names.EndNames | src/sync/receive.rs:446-452 | A directory ended gives back exactly the names noted in it |
| Converge.Converges | src/sync/receive.rs:279-592 | A run that ends well leaves, path by path, the recursive merge of the source and the destination, whatever the interleaving; the merge is defined without walk or protocol |
| Converge.Mirrors | src/sync/receive.rs:446-472 | With delete, after a run that ends well and parts apart, a directory sent holds exactly the entries of the source, and those that were there and are excluded or of a kind not copied |
| Converge.NothingExcludedSent | src/sync/send.rs:240-253 | Nothing excluded, nor anything in it, is sent |
| Converge.HeadersNotExcluded | src/sync/send.rs:240-253 | Every header that goes is of an entry not excluded |
| Converge.ExcludedStays | src/sync/receive.rs:446-472 | An excluded entry is removed if and only if a directory above it is removed that is itself neither sent nor excluded |
| Cut.CutSafe | src/sync/receive.rs:491-591 | Wherever a copy is cut, each entry outside the parts is what it was or what a whole copy leaves there |
| Cut.FilesWhole | src/sync/receive.rs:567-591 | No file is ever in between: it has its old content or the whole new one |
| Cut.GoesOnFromPrefix | src/sync/send.rs:302-316 | In every run, when the bytes of a file are to come from some byte on, its part holds the bytes of the source file before it |
| Resume.SaidIsSo | src/sync/send.rs:302-316 | In every run a file is called the same if and only if the same content is there, and else goes on, or in a dry run would, from the end of its part if and only if that begins the content and no file of its size stands there; from byte 0 otherwise |
| Modes.NoneSetsId | src/sync/mod.rs:149-153 | In every run, at any time, no mode set has the set-user-ID or the set-group-ID bit, and the other permission bits are those of the source |
| Cut.RerunSame | src/sync/receive.rs:393-443 | A copy cut and run again comes to the same tree as one not cut if and only if the cut left open no directory it made whose mode is not the one it makes them with |
| Cut.CutsSame | src/sync/receive.rs:393-443 | Path by path, the merge a whole run comes to after any number of cut runs is that of a copy not cut, if and only if none of the cuts left the path a directory open |
| Cut.RerunConverges | src/sync/receive.rs:279-592 | A copy cut any number of times, each rerun cut in turn, then run to a good end, leaves at a path the merge an uncut copy leaves if and only if none of the cuts left it a directory open |
| Cut.RerunKeepsTimes | src/sync/receive.rs:393-443 | With times kept none ever does, so always |
| DryRun.TellsTheTruth | src/sync/receive.rs:593-647 | From a target directory that is there, with no parts in it, the counts of a dry run and of the copy are equal if both end well, in whatever order each is answered, and the dry run changes nothing |
| DryRun.NoneResumed | src/sync/receive.rs:380-391 | There, no byte count is of a resumed file |
| Order.ClosesWhenDone | src/sync/receive.rs:446-488 | In every run at any time, mid-file too: a directory has what was there till its header, its first mode and no time till its End came and every file under it is done, and from then on its mode, and its time if times are kept |
| Order.WaitsExactly | src/sync/receive.rs:446-488 | In every run the directories waiting are exactly those ended with a file under them still to come |
| Order.SetOnce | src/sync/receive.rs:474-488 | The mode and time of a directory change at one point of a run after its header: closed it stays closed, and at any two times of a run on one side of that point they are the same |
| Order.AllClosed | src/sync/receive.rs:474-488 | When a run ends well no directory waits, no file is under way and none is open, and each directory sent has its mode, and its time if times are kept |
| Order.ClosedForGood | src/sync/receive.rs:474-488 | A directory once closed stays closed for the rest of the walk |
| Order.EndsOnce | src/sync/send.rs:254 | No two steps of a walk end the same directory |
| Examples.LeftOpenHappens | src/sync/receive.rs:393-443 | A copy cut after one header, whose rerun leaves the directory with mode 0700 |
| Examples.CalledMalformed | src/sync/receive.rs:551-565 | A run in which a sender that gives up once it began a file says so, and is reported as malformed |
| Examples.ExcludedGoes | src/sync/receive.rs:446-472 | A tree where a delete removes an excluded entry with the directory it is in |
| Landings.Receiver.Run | src/sync/receive.rs:279-340 | The receiving loop over any input ends in exactly the state, failure or summary the item semantics give |
| Landings.Receiver.Place | src/sync/receive.rs:344-355 | Where an entry lands: the open directory, or the target under its name or the one asked for |
| Landings.Receiver.Saw | src/sync/receive.rs:357-368 | The names sent into the open directory, and the bound on them |
| Landings.Receiver.Enter | src/sync/receive.rs:393-443 | A directory entered: made, kept, or what stood there removed, every refusal in its order |
| Landings.Receiver.Leave | src/sync/receive.rs:446-472 | A directory left: what was not sent goes if asked, and it waits to close |
| Landings.Receiver.Prune | src/sync/receive.rs:446-472 | The loop over the names there removes all and only those not sent and not excluded |
| Landings.Receiver.CloseReady | src/sync/receive.rs:474-488 | The closing loop is the closing of all that is ready |
| Landings.Receiver.File | src/sync/receive.rs:491-549 | A file header: answered by what is there, its part kept |
| Landings.Receiver.Data | src/sync/receive.rs:567-592 | The chunk loop writes the part and renames it, or stops |
| Landings.Receiver.Same | src/sync/receive.rs:623-647 | The same file |
| Landings.Receiver.Differs | src/sync/receive.rs:613-622 | A file that would be sent |
| Landings.Receiver.Symlink | src/sync/receive.rs:650-673 | A symlink made, replaced or left as it is |
| Landed.StreamLands | src/sync/receive.rs:234-267 | Fed a conforming stream cut anywhere, the loop ends with the merge, or with each file outside the parts whole |
| Landed.RunLands | src/sync/receive.rs:279-340 | It reports success only at the end of the stream, with the merge there |
| Sending.MoveIsStep | src/sync/send.rs:257-336 | What the sender does alone and the steps of its end in the machine are the same, both ways |
| Sending.RunsAreMoves | src/sync/send.rs:87-127 | In every run of the machine the sender stands where its moves lead and what is on its way is the last it wrote |
| Sending.Sender.Dir | src/sync/send.rs:217-255 | The recursion over a tree sends exactly the headers the explicit walk sends, in order, excluded entries skipped, answers taken in between |
| Sending.Sender.Entry | src/sync/send.rs:186-213 | An entry of any kind sent: the walk is past it and all in it |
| Sending.Sender.File | src/sync/send.rs:257-272 | A header sent and its file pending; at 64 pending it waits |
| Sending.Sender.Answers | src/sync/send.rs:274-299 | Answers taken as they come, none, some or all, are steps of the machine; a wait takes at least one |
| Sending.Sender.Answer | src/sync/send.rs:301-336 | An answer brings Same, Differs or the bytes, by the resume rule, and its file is pending no more |
| Sending.Sender.SendBytes | src/sync/send.rs:320-335 | The read loop tiles the file from the byte agreed, however short the reads |
| Sending.Sender.Send | src/sync/send.rs:87-127 | Whatever replies come when, all the sender writes is a run of the machine, which ends Done with all sent and answered, or Failed, or by the word of the receiver |
| Utf8.IncompleteUtf8 | src/stream.rs:320-337 | The search back from the end finds how many bytes begin a character whose end has not come |
| Utf8.LossyEncoded | src/stream.rs:415-463 | Text written as RFC 3629 section 4 has it reads back as it was |
| Utf8.FirstIsMaximal | src/stream.rs:440-446 | What is replaced at once is the longest stretch some character begins with, or a byte, and a character read is the one written there |
| Utf8.CutAfter | src/stream.rs:320-337 | What comes before whole characters does not change what waits |
| Utf8.CutFound | src/stream.rs:320-337 | Of text cut anywhere, what waits is exactly the bytes of the character cut |
| Judge.TitleFixed | src/stream.rs:415-463 | A title rewritten is rewritten to itself |
| Questions.OutputComes | src/stream.rs:202-489 | Any output of whole sequences passes exactly as the tables say: each control sequence dropped if and only if it is a listed question, device strings, clipboard, colours, titles, links and marks by their own terms, sequences past their bounds dropped; said without the judging functions |
| Questions.UnitComes | src/stream.rs:227-489 | The same for one sequence, from a filter between sequences and back to one |
| Questions.CsiAsksIff | src/stream.rs:366-400 | A control sequence asks if and only if its private byte, intermediates and final byte are in the table of questions, or it is a window report by the number of its first field |
| Questions.MarkIs | src/stream.rs:475-489 | A mark is relayed if and only if the policy has it by its fields, its nonce taken out |
| Stream.RunBounded | src/stream.rs:191-199 | The sequence being read never passes its bound |
| Stream.RunMore | src/stream.rs:139-156 | The one-pass meaning of two inputs is that of their concatenation |
| Stream.Filter.Byte | src/stream.rs:227-316 | A byte takes the filter where the machine of ECMA-48 sections 5.4 and 5.6 as the code has it goes |
| Stream.Filter.Gather | src/stream.rs:191-199 | A byte gathered, or the sequence marked too long |
| Stream.Filter.Finish | src/stream.rs:202-225 | A whole sequence passed, dropped, rewritten or taken out as a mark |
| Stream.Filter.Pass | src/stream.rs:171-181 | Bytes passed are given out in non-empty pieces of at most MAX_OUT |
| Stream.Filter.Feed | src/stream.rs:139-156 | Fed in any pieces the filter is where one pass over all bytes read leads, has given out what passes but at most 3 bytes held back, in pieces within bounds |
| Stream.SplitsUnseen | src/stream.rs:139-199 | Two filters that read the same bytes, split otherwise, are in the same state and gave out the same bytes and marks |
| Refeed.Idempotent | src/stream.rs:202-316 | With no lone ESC, what passed, fed to a fresh filter, leaves it between sequences, yields no mark and passes but for each ENQ read inside a sequence, so unchanged if and only if there was none |
| Refeed.GivenWhole | src/stream.rs:159-181 | What was given out by any time ends between sequences and passes whole |
| Refeed.PiecesWhole | src/stream.rs:139-199 | So whatever pieces a filter gave out by the end of a feed pass a fresh one whole |
| Refeed.EndsBetweenIff | src/stream.rs:202-316 | What passed, at every time, ends between sequences when fed again if and only if no lone ESC was read |
| Refeed.PassesWholeIff | src/stream.rs:202-316 | And passes whole, at every time, if and only if no lone ESC and no ENQ inside a sequence was read |
| Refeed.LoneEscPasses | src/stream.rs:256-266 | By way of a lone ESC even a whole question passes, which by itself is dropped: four bytes that show it, under any policy |
| Redraw.RowPaints | src/terminal/redraw.rs:94-140 | The bytes of a row rebuild its cells and nothing else, wherever it begins |
| RedrawLines.LinesShown | src/terminal/redraw.rs:155-178 | All lines painted in turn show as they were, history above them, when wraps and places allow |
| RedrawFails.OnlyIf | src/terminal/redraw.rs:155-178 | And only then: else fewer lines, or fewer wraps, come out |
| RedrawWhole.RebuildsExactly | src/terminal/redraw.rs:144-330 | From any terminal of its size, a screen comes back (rows, wraps, just the newest rows of history asked for above it, cursor, pending wrap, pen, region, modes) if and only if each soft wrap is followed by something, no row under history is moved to before its turn, a waiting cursor is on a certain narrow glyph with autowrap on, and no synchronized frame is open |
| Painting.RedrawScreen | src/terminal/redraw.rs:144-330 | The painter with its pen and loops writes exactly such a redraw |
| Painting.Painter.PaintRow | src/terminal/redraw.rs:94-140 | A row painted by the loop over its cells, the pen tracked |
| Painting.Painter.PaintLines | src/terminal/redraw.rs:155-190 | The rows of the primary screen and the history |
| Painting.Painter.PaintAlternate | src/terminal/redraw.rs:191-205 | The rows of the alternate screen |
| Painting.NoHistoryStays | src/terminal/redraw.rs:159-170 | With no history asked for, the condition on places always holds |
| Looks.RanLooks | src/client/display.rs:100-134 | Whatever is written to two terminals that look the same leaves them looking the same, blanks compared as blanks |
| Damage.PaintHarms | src/client/display.rs:204-220 | A glyph of the overlay harms only the glyphs it touches, whole wide ones included |
| Damage.RepairMends | src/client/display.rs:271-292 | Printing again what the mirror has at a covered cell mends it and harms nothing |
| Displays.Display.Output | src/client/display.rs:100-134 | Output finds the overlay taken back: the terminal then looks like the mirror, which has it too |
| Displays.Display.Mark | src/client/display.rs:136-144 | A mark is written over no overlay |
| Displays.Display.Paint | src/client/display.rs:193-252 | The terminal looks like the mirror with the painted bytes applied, and these show each glyph of the overlay not painted over, in its style, the status line reversed on the last row, and the cursor where it is predicted |
| Displays.Display.Unpaint | src/client/display.rs:256-302 | Taken back, the terminal looks exactly like the mirror, wide glyphs the overlay split included |
| Displays.Display.Clip | src/client/display.rs:224-227 | The status line cut to the longest beginning that fits |
| Wide.StaysWhole | src/predict.rs:257-292 | Whatever is typed, joined, erased, acked and graded against one well-formed screen, each half of a predicted wide glyph has the other beside it, of one epoch and expiry |
| Wide.NeverHalfAGlyph | src/predict.rs:656-672 | So from a fresh engine the overlay never shows half a glyph |
| Wide.HalvesGoTogether | src/predict.rs:579-653 | A frame grades both halves away or neither |
| Drawing.StaysRoomy | src/predict.rs:383-431 | Whatever is typed and shown, on whatever screens in turn, no wide guess is in the last column |
| Drawing.OverlayFits | src/client/display.rs:193-225 | So in every run the overlay drawn meets what painting asks of it |
| Trust.TrustedIffEarned | src/predict.rs:579-653 | An epoch is trusted at the end of a run if and only if it was at its start or a frame showed right, in its cell, a non-blank glyph of that epoch or later; but for the first under kernel echo |
| Trust.HiddenUntilEarned | src/predict.rs:656-672 | Nothing guessed in an epoch not trusted is drawn, cell or cursor, until then |
| Trust.OpensIff | src/predict.rs:383-567 | An epoch is opened by input that is no key, by a hold, and by exactly those keys that may not be predicted or are not guessed where the engine stands: so by Enter, at the end of the row, over text, at the start of a line |
| Trust.TrustIsEarned | src/predict.rs:502-567 | After any step that opens an epoch, in every run from a fresh engine, what is typed later is hidden until earned |
| Trust.FreshDrawsNothing | src/predict.rs:176-196 | Without kernel echo a fresh engine draws nothing until a frame proves its first epoch |
| Trust.HeldKeysNeverGuessed | src/predict.rs:541-560 | While a hold stands no key adds a guess, through any run |
| Trust.NothingAtAPrompt | src/predict.rs:217-231 | In every reachable state at a password prompt the engine keeps no guess and draws nothing |
| Echo.GuessIsEcho | src/predict.rs:383-575 | Against the terminal: on one that shows the screen with the guesses and the cursor where it is guessed, the echo of any key guessed (a glyph printed or joined, the one on the left blanked, a column over, CR LF) leads to what is shown with the key guessed too, cells and cursor; after the last column and on the last row the cursor where the next glyph goes |
| Echo.TypedAhead | src/predict.rs:383-539 | However many keys are typed before a frame reflects any, the screen with all the guesses is what a terminal shows that got all the echoes |
| Echo.TrustedIsSeen | src/predict.rs:656-672 | In a trusted epoch what is drawn over the screen is just that, cursor too |
| Echo.AheadStays | src/predict.rs:579-653 | A frame that reflects nothing yet leaves every guess as it is |
| Grading.FrameSettles | src/predict.rs:579-653 | A frame that shows the user was misled takes every guess; any other takes exactly the guesses it reflects and those of an epoch with a mistaken one |
| Grading.ReachesOwnLine | src/predict.rs:451-494 | No key erases or steps left over what is not of the line being typed: before its beginning, or, that not known, not typed as guessed |
| Grading.LineBegins | src/predict.rs:353-361 | The first glyph guessed once Enter is reflected begins the line where the program has its cursor |
| Grading.ReattachedTrusts | src/predict.rs:204-231 | After any run the engine of a reconnect draws at once if and only if the old one would have |
| Predict.Largest | src/predict.rs:592-603 | The newest epoch confirmed: one of them, and none is newer |
| Predictor.PredictionEngine.SetTty | src/predict.rs:217-231 | Modes told |
| Predictor.PredictionEngine.Reattached | src/predict.rs:204-210 | The engine of a reconnect |
| Predictor.PredictionEngine.PredictGlyph | src/predict.rs:383-431 | A grapheme joined or typed, by the fields in place |
| Predictor.PredictionEngine.PredictBackspace | src/predict.rs:464-479 | Backspace |
| Predictor.PredictionEngine.PredictArrow | src/predict.rs:483-494 | Left and Right |
| Predictor.PredictionEngine.PredictEnter | src/predict.rs:571-575 | Enter |
| Predictor.PredictionEngine.Hold | src/predict.rs:545-548 | A hold begun |
| Predictor.PredictionEngine.NewUserKey | src/predict.rs:502-539 | A key: graded, then predicted, held or hidden, exactly as the value it stands for |
| Predictor.PredictionEngine.Read | src/predict.rs:599-620 | The pass over the cells in order: what goes, what is killed, or that a guess drawn was wrong |
| Predictor.PredictionEngine.Restyle | src/predict.rs:628-635 | The recolouring loop, rightmost style last |
| Predictor.StyledIsRestyled | src/predict.rs:594-635 | The last style to cover a cell is that of the nearest confirmed cell on its left |
| Predictor.PredictionEngine.Cull | src/predict.rs:579-653 | The loops over the cells come to the grading defined cell by cell |
| Logs.AppendKeeps | src/server/jobs.rs:46-57 | The log stays the end of all output, within twice its budget, and draining moves no more than it drops |
| Logs.MovesNoMoreThanDropped | src/server/jobs.rs:46-57 | Over any run of appends the bytes moved by draining are at most the bytes dropped |
| Logs.ReadTells | src/server/jobs.rs:65-73 | A read tells exactly what is lost and what is there from a byte on |
| Logs.TailIsLastLines | src/server/jobs.rs:75-97 | The tail is the last lines asked for, and the lines said to go before it are the rest if and only if some are asked for or the log ends a line |
| Logs.Log.Append | src/server/jobs.rs:47-57 | Append in place |
| Logs.Log.ReadFrom | src/server/jobs.rs:67-73 | Read against the whole output |
| Logs.Log.TailOf | src/server/jobs.rs:77-97 | The tail found by looking back |
| Follow.FollowerTiles | src/server/jobs.rs:439-496 | In every interleaving of appends, publishing, the end and the follower: data and drops told tile the output from where it began, no gap, no overlap, and an end with a status comes last and only with all of it tiled |
| Follow.WholeWhenNoneDropped | src/server/jobs.rs:439-496 | A follower of a log that dropped nothing got the output to the byte |
| Follow.FollowerLooksAgain | src/server/jobs.rs:473-488 | Once the job ended the follower ends |
| Awaited.FoundTells | src/server/jobs.rs:130-144 | A search finds the text if and only if it begins at a kept place from its cursor on, and moves the cursor past exactly what is settled |
| Awaited.RunningJob.Find | src/server/jobs.rs:132-144 | The search over windows |
| Awaited.RunningJob.Append | src/server/jobs.rs:146-154 | Output appended and its length published |
| Awaited.RunningJob.End | src/server/jobs.rs:156-161 | The end, once all is published |
| Awaited.AnyWindow | src/server/jobs.rs:143 | Whether some window is the text |
| Awaited.WaitAnswersRight | src/server/wait.rs:54-76 | In every interleaving a wait answers Text only if the text occurred, Ended only if the job ended and the text never began but in bytes dropped before they were searched |
| Awaited.WaitExact | src/server/wait.rs:54-76 | With nothing dropped, Text if and only if it occurred |
| Awaited.WaitComes | src/server/wait.rs:54-76 | Once the job ended a wait is answered within five steps of its own, in every interleaving |
| Coalesce.Coalesce | src/server/session.rs:959-972 | The joining loop |
| Coalesce.CoalesceShowsTheSame | src/server/session.rs:959-972 | Joined messages carry every byte and mark, in order |
| Coalesce.CoalesceKeepsBound | src/server/session.rs:963-964 | No message grows past MAX_OUT |
| Coalesce.CoalesceIsOptimal | src/server/session.rs:959-972 | No order-preserving grouping of the same whole messages into messages of the wire is fewer |
| Coalesce.Redrawn | src/server/session.rs:976-993 | A redraw cut into messages within MAX_OUT holds its bytes, and for text whose characters are at most four bytes each message begins a character |
| Pictures.ShownIsReal | src/client/mod.rs:423-471 | In every run with lag, redraws, held output and streams cut or late, what the client shows after a whole redraw is the session after some beginning of what it told: nothing missed, nothing twice |
| Pictures.NeverGoesBack | src/client/mod.rs:776-797 | And later it shows that and more |
| Pictures.CaughtUpShowsAll | src/server/session.rs:604-631 | Caught up, the client shows exactly what the emulator was fed |
| Pictures.AlwaysCatchesUp | src/server/attach.rs:260-304 | And it always can: from wherever a run is, steps of the two ends alone, with nothing more written, bring the client to show all the session was fed |
| Pictures.ReleasedSound | src/server/session.rs:710-734 | Releasing held output before a redraw leaves told exactly what the redraw shows |
| Pictures.TakesSound | src/server/attach.rs:283-304 | An event taken goes on the newest epoch, next in turn |
| Pictures.OpensSound | src/server/attach.rs:260-271 | A new epoch begins no earlier than any before it shows |
| Epochs.Wire.Hear | src/client/mod.rs:776-797 | A message of an older epoch is dropped, a newer one begins anew |
| Handshakes.Bounded.PushEvicting | src/bounded.rs:53-59 | A window of the newest |
| Handshakes.Bounded.PushBack | src/bounded.rs:44-51 | A full queue gives the item back |
| Handshakes.Bounded.Retain | src/bounded.rs:75-77 | What is kept, in order |
| Handshakes.Pending.Crowded | src/server/cli.rs:438-441 | The finished forgotten, and whether the table is full |
| Handshakes.Pending.Room | src/server/cli.rs:445-458 | The count per source and the one given up: the oldest of a source holding the most, only when full |
| Handshakes.Pending.Arrive | src/server/cli.rs:846-881 | One arrival |
| Flood.StepKeeps | src/server/cli.rs:846-881 | The table stays within its bound, oldest first, and loses an unfinished handshake only to that rule |
| Flood.FloodGivesUpItsOwn | src/server/cli.rs:423-434 | Over any run, a handshake whose source some other outnumbers whenever the table is full stays until it finishes |
| Flood.OlderGoFirst | src/server/cli.rs:423-434 | Over any run a handshake goes only after every older one of its own source |
| Flood.FairShare | src/server/cli.rs:445-458 | A source that loses one held at least the table over the number of sources in it |

## Left out

- QUIC, tasks, threads, signals, processes, PTYs and clocks: channels are sequences, concurrency is interleaved steps, a
  time set by the system is `Arrived`.
- System calls: each is one operation on the tree. Permissions, races on symlinks, errors of single calls other than the
  kinds modelled, and the depth limit of a removal are not part of this model.
- BLAKE3 is the identity on contents, so injective; the name of a part embeds the name of its file; Postcard encoding is
  left out, items are values.
- Two sources of one copy that land under the same name; what is in a directory (`a/.`) copied beside other sources, whose
  entries may land on theirs; names that are part names.
- DryRun.TellsTheTruth: a dry run into a target directory that is not there, which the copy would make first.
- The list of changes a dry run prints, resolving the target path and the parents made for it.
- A directory held open is told apart by its value, not by reference identity; an id is a number, its 32 bits are in
  `Flow.IdsApart` only.
- The depth of the pipe between an end and its stream: a handed-on item always has room.
- Displays.Display.Paint: a wide glyph of the overlay in the last column would wrap there and is required not to be;
  `Drawing.OverlayFits` proves that the predictor draws none on the screen it saw last.
- Landings.Receiver.Symlink: a directory at the part name of the link is removed whole, where the removal of one deeper
  than MAX_DEPTH fails, and the link with it.
- RedrawWhole.RebuildsExactly: hyperlinks, left and right margins, marks, and the joining of a glyph to the one before it
  are left out, and mouse, keypad and keyboard modes are one set of modes. Ops stand for escape sequences; erasing with a
  colour and insert mode are not part of this model.
- Stream.Filter: the text of titles is cut by code points; what a terminal does with what passes is not part of this model.
- Display: the filter in front of it, a resize, a new epoch and titles; reports and marks write what shows nothing.
- Wide.StaysWhole: one screen throughout, as a guess made on another may be half overwritten by a join.
- Echo.GuessIsEcho: the terminal's pen is the program's, set as it prints; no scroll region, and characters of at most two
  columns.
- Predict: counters are unbounded where the code saturates at 64 bits; width and joining of characters are any functions.
- Trust.TrustIsEarned: from an engine without trust carried from another connection.
- Logs: totals are unbounded where the code saturates.
- Follow: listing, starting, signalling and forgetting jobs, and the place a job takes in the table.
- Awaited: waits on sessions and files, which poll.
- Pictures.ShownIsReal: a redraw is taken to rebuild the picture (that is `RedrawWhole.RebuildsExactly`, where it holds);
  epochs are not wrapped at 32 bits; the top row told beside an epoch, pacing by bytes read, and heartbeats are left
  out, as they change nothing shown.
- Coalesce.Redrawn: marks in a redraw.
- Handshakes: abort handles and the retry itself; a source is a number, or none for a relay.
- The saved clients list settling between two reads, echo timing, the command line, menus, key and names files, logging
  and JSON output.
