# Ring query: a verified model

The program runs N processes in a one-way ring. Process i sends to i-1 and process 1 sends to N
(main.cpp:132, main.cpp:148). Together they answer the Small-Quantity-Order Revenue Query of TPC-H
(section 2.4.17 of the TPC-H specification, with 0.3 where that section has 0.2). The phases of the
query are separated by a barrier that circulates a token with one counter per process. This project
models the barrier, the three calculations that run on it (`FinalCompetitionCalculator`, base
`Calculator`, `AdvancedCalculator`), the tables, the codecs and the frames, and proves them for every
N >= 2, every distribution of the rows and every interleaving of all threads.

## How the model is built

| layer | modules |
|---|---|
| start of a query | `StartFlood` |
| ring and barrier | `Topology`, `Barrier`, `BarrierInvariant`, `BarrierSteps`, `BarrierTheorems`, `BarrierTermination`, `FlushReach`, `History`, `RunMeasure` |
| final query | `Query`, `FinalCompetition`, `FinalInvariant`, `FinalSteps`, `FinalKeys`, `FinalTables`, `FinalAnswers`, `FinalRecords`, `FinalTermination`, `EndToEnd` |
| its objects and threads | `SaleTables`, `Processes`, `Undisturbed` |
| base calculation | `BaseCalculator`, `BaseRuns`, `BaseInvariant`, `BaseSums`, `BaseProcess`, `BaseSteps`, `BaseFlow`, `BaseTermination`, `BaseRouting`, `BaseTotals`, `BaseTheorems`, `BaseReach`, `BaseThread` |
| advanced calculation | `AdvancedCalculator`, `AdvancedRuns`, `AdvancedInvariant`, `AdvancedProcess`, `AdvancedSteps`, `AdvancedFlow`, `AdvancedTermination`, `AdvancedTheorems`, `AdvancedThread` |
| tables and loading | `BrandTables`, `SalesSums`, `PartRows`, `Loading`, `Sequences` |
| text and bytes | `Fields`, `Wire`, `RoundTrips`, `Frames`, `Delivery` |

A *system* is a ring of processes and FIFO channels with an arbitrary payload type, plus the tables of
each process. One step is one statement or loop iteration of a main thread, or one message read by a
server thread; any enabled step may come next. Inside `doAsync` the statement that sets
`is_finished`, the call of `sendFinish`, the wake-up, the increment of `finish_index` and the insertion
into `is_notify` are five separate steps. The program's loops and objects are written a second time as
Dafny classes and methods whose contracts say that they perform the moves of the transition system;
`Undisturbed.RunsItsRound` shows that the rounds those methods compute are runs of the system.

The `finalPart` case is modelled as it stands, without a `break`: every part sale that is merged also
adds its part id to `underSales` (cpp/server.cpp:162-175). `EndToEnd.FallThroughPollutes` says by how much,
`EndToEnd.PollutionIsErased` that nothing of it is left in the answer.

Assumptions:

- Each connection is a reliable FIFO channel of whole messages, and a send is one atomic step.
- The condition variable is a latch that `notify_one` sets and `wait` consumes.
- Reading one message, and each main-thread access to a table, is atomic.
- Prices and averages are exact reals, integers are unbounded, and token counters are numbers;
  their character form is treated in `RoundTrips`.
- The calculations start with all processes agreed on the query and on `select_idx`; `StartFlood` shows
  how they come to agree. N >= 2 and the zero token has N digits.
- Ids are the program's indices minus one; the port of id i is 8001 + i for any N.
- The lists of the base calculation are for data in which every ordered part is stored by exactly one
  process (`OwnedOnce`); where its orders are counted, its totals and when it ends is stated for any data.
  The results of the advanced calculation are for unique part keys and orders whose part is in some
  process's table (`ValidData`); that its runs end is stated for any data.

Bookkeeping that no step depends on: the origin and round of a message, the `ledger` of the final
query, and the `put` and `got` records of `History`.

## Where the code is weaker than one would hope

- A barrier is often taken to flush the whole ring. It does not: when process x leaves a round, the
  earlier messages of process p have certainly arrived at q if and only if q is no further along the
  ring from p than x is (`FlushReach.FlushIsExact`; `FlushReach.Escapes` builds the run in which a
  message gets away). The same holds of the orders of the base calculation, in runs of that calculation
  (`BaseReach.OrdersReachExactly`): "all orders are counted before anybody leaves the first barrier" is
  true for two processes and false for every other number (`BaseReach.AllAreCountedExactlyForTwo`).
  Every table is nevertheless complete when its own process leaves (`BaseTheorems.TableIsComplete`).
- An order whose part no process stores is sent round the ring for ever. The runs of the base
  calculation are bounded if and only if every ordered part is stored somewhere
  (`BaseTermination.RunsEndExactlyIfStored`). Closing the connection after the last barrier loses nothing
  but such orders (`BaseTheorems.ClosedProcessIsSilent`).
- A part that several processes store is counted where an order meets it first. The total of the sales is
  right all the same, but the part count, and with it the average, is right if and only if all orders of a
  part meet at one process (`BaseTheorems.TotalsForAnyData`).
- An order of the advanced calculation for a part that no table holds is booked with the brand and the
  container of row 0 (`AdvancedThread.Calculator.SolveOrder`).
- Two `select` commands typed to different processes can leave the processes with different queries for
  good (`StartFlood.TwoCommandsDisagree`, `StartFlood.ParametersStay`); commands typed to one process
  cannot (`StartFlood.OneTypistAgrees`).
- A sale total is printed from 64 bits and read back into 32. No intermediate value of the scanner leaves
  the 32 bits if and only if the total is at least 48 below 2^31 (`RoundTrips.NarrowingIsSafe`).
- The two scanners of decimals read a text of digits and points alike if and only if no digit other than
  0 stands behind a second point (`Fields.ScannersAgreeExactly`); "1..2" is 1.2 for one and 1.02 for the
  other. Only a row of the order table can hold such a text: a printed price has exactly one point
  (`Fields.OnePoint`).
- A point in an earlier field of an order or of part data counts as the point of the price. The field of
  the price alone decides it if and only if there is no such point, or the field has no digit before its
  own point, or it holds only zeros (`Wire.PriceIsItsField`). No printed body has a point there
  (`RoundTrips.PrintedFieldsHaveNoPoint`).
- No scanner knows a sign, brand digits are told from a count by being different from 0, and
  `unzipPartData` drops the points of a container; the round-trip lemmas are therefore if-and-only-if
  statements over all values.
- The third test of the `finish` case decides in one situation only: between the two halves of
  `is_notify[finish_index++] = 1`, when a late token of the round arrives. Everywhere else the first two
  tests imply it (`BarrierTheorems.NotificationsDoNotLeak`). The situation occurs, and without the test the
  token would be sent on (`FlushReach.ThirdTestDecides`).

## Model

| member | source | states |
|---|---|---|
| StartFlood.StepKeepsInv | cpp/server.cpp:37-50 | Every command, every step of a main thread and every start message read keeps: parameters and messages stem from commands, no wake-up is lost and none outlives its wait, and whoever has sent a start message has a successor that has read one or will |
| StartFlood.ParametersAreTyped | main.cpp:94-110 | In every run, with any number of commands, a process that has been told of a query holds what one of the commands typed in: the index of its process, and the container and brand of the command or, where these could not be parsed, those its process held at that moment |
| StartFlood.OneTypistAgrees | main.cpp:101-107 | In every run whose commands are typed to one process, all processes that have been told of a query hold the index of that process as `select_idx`, and the container and brand of the first command, or those the process started with where these could not be parsed |
| StartFlood.EverybodyStarts | main.cpp:158-168 | After a command, a state in which only further commands can happen has every main thread past its wait, its wake-up consumed, and no start message left |
| StartFlood.MaximalFloodAgrees | main.cpp:158-168 | With commands to one process no run is longer than 3n steps and two for each command, and one that cannot be continued otherwise ends with every process calculating with the index of that process and with container and brand of the first command |
| StartFlood.TwoCommandsDisagree | main.cpp:94-110 | For any two processes and any two queries there is a run with a command to each after which two processes that have been told of a query hold the one and the other |
| StartFlood.ParametersStay | cpp/server.cpp:37-50 | A process that has been told of a query keeps its parameters whatever happens afterwards |
| BarrierSteps.StepKeepsInv | cpp/server.cpp:58-109 | Every step of either thread of any process keeps the barrier invariant: flags, token shape, order in the channels, what is flushed, the wake-up wave, and that a round is never lost |
| BarrierSteps.StampKeepsShape | cpp/Calculator.cpp:154-165 | A token that takes one more hop is again the token determined by its origin, lap and place; meeting a process for the second time it is full |
| BarrierSteps.FullTokenIsAccepted | cpp/server.cpp:82-108 | A full token that waits in front of a process not yet notified of its round passes every test of the server and notifies it |
| BarrierTheorems.NobodyLeavesEarly | cpp/Calculator.cpp:191-203 | In every run, when a process has left a round every process has entered it, and two `finish_index` values differ by at most 1 |
| BarrierTheorems.TokenTellsTheTruth | cpp/Calculator.cpp:154-173 | In every run a counter of at least 1 for p means that p has set `is_finished` for the round; counters stay at most 2, and a token is determined by origin, lap and channel |
| BarrierTheorems.NotificationsDoNotLeak | cpp/server.cpp:91-107 | In every run `is_finished(r)`, no `is_notify(r)` and `finish_index != r` hold together if and only if the process is between `finish_index++` and the insertion of r; a process outside the barrier has no pending notification and was notified of exactly the rounds it has left |
| BarrierTheorems.BarrierFlush | cpp/server.cpp:91-107 | Once q is notified of round r, a message sent up to round r that is still on its way is past q: none of them can still reach q on its first lap |
| BarrierTheorems.ReadsLaterRounds | cpp/server.cpp:58-109 | After the notification of round r the server reads only payload messages of later rounds |
| BarrierTheorems.NoLostRound | cpp/Calculator.cpp:191-203 | In every run, while all have entered a round and somebody has not left it, some step of the barrier or of a server is enabled: the round cannot get stuck |
| BarrierTheorems.NotifiedSpreads | cpp/server.cpp:99-107 | With empty channels one notified process means that all are notified |
| BarrierTheorems.LateTokensAreIgnored | cpp/server.cpp:82-108 | A process that has left the last round ignores every token that still reaches it |
| BarrierTermination.StepWork | cpp/server.cpp:91-107 | For all tokens, for the tokens of one round, and for all messages: a reception uses up at least one unit of remaining hops, a main thread's send creates at most 2n of them, nothing else adds any; for all messages only in steps that do not send on a message of the process's own |
| BarrierTermination.HopsOfToken | cpp/Calculator.cpp:154-165 | The counters of a token sum to one more than the number of its receptions so far |
| BarrierTermination.TokenIsYoung | cpp/server.cpp:91-107 | In every run a token on its way has been received fewer than 2n times, so no token is received more than 2n times; origin and receptions determine it |
| BarrierTermination.TokensAreBounded | cpp/Calculator.cpp:154-173 | In every run at most 2n tokens are received for each token that a main thread sent |
| BarrierTermination.RoundIsFinite | cpp/Calculator.cpp:191-203 | In every run, for every round, the main threads send at most n tokens of it and the servers read at most 2n * n |
| BarrierTermination.TrafficIsBounded | cpp/Calculator.cpp:154-173 | Payload included: in every run in which no process sends on a message of its own, the messages received are at most 2n times the messages that main threads sent |
| FlushReach.FlushIsExact | cpp/server.cpp:91-107 | For all n, p, x, q: x leaving a round guarantees that p's messages have arrived at q if and only if q is no further from p than x |
| FlushReach.Escapes | cpp/Calculator.cpp:191-203 | For all n and p != x there is a run in which x leaves round 0 while a message that p sent in round 0 sits in x's outgoing channel |
| FlushReach.ThirdTestDecides | cpp/server.cpp:82-89 | For all n and x there is a run in which the server of x reads a token of round 0 that passes the first two tests and fails the third, and would be sent on without it |
| History.RecordKeepsInv | cpp/client.cpp:54-59 | Every step keeps: sent == received + in the channel, in order, and a message on its way was sent by every process it has passed |
| History.Delivered | cpp/server.cpp:91-107 | When q is notified, every hop of the way from p to q has delivered p's messages of that round completely and in order |
| History.Arrives | cpp/server.cpp:91-107 | If the processes between p and q relay p's messages, q has received exactly what p sent, in order, once any x no nearer to p than q is notified |
| History.ArrivesSoFar | cpp/client.cpp:54-59 | At any time what a process has received of p is, in order, a beginning of what p has sent |
| FinalKeys.KeyReaches | cpp/server.cpp:150-160 | Once q is notified of round 0, it knows every key that any process knows |
| FinalKeys.KeyFloodAgrees | cpp/FinalCompetitionCalculator.cpp:83-96 | After the first barrier `partKeyMap` of every process holds exactly the keys of the loaded parts, of whatever process, whose container and both brand digits are those of the query |
| FinalKeys.SentAnswer | cpp/FinalCompetitionCalculator.cpp:160-170 | What a process sends in its turn of the chain is the revenue of all processes from `select_idx` down to itself |
| FinalTables.QueueConserves | cpp/server.cpp:162-168 | Along a FIFO edge, sales booked at the sender equal sales merged at the receiver plus sales in the channel, before and after any exchange |
| FinalTables.EdgeAfter | cpp/server.cpp:162-168 | Every step of the system keeps that conservation on every edge for every origin, so no part sale is lost, doubled or reordered |
| FinalAnswers.EachSaleMergedOnce | cpp/server.cpp:162-168 | When q has left round 2 it has merged exactly the part sales that p sent, each once and in order, for every p other than q |
| FinalAnswers.MergedTablesAreTotals | cpp/FinalCompetitionCalculator.cpp:112-129 | After `mergeData` every process holds, for every key, the sums of quantities and counts over the orders of all processes |
| FinalAnswers.LocalTestIsGlobal | cpp/FinalCompetitionCalculator.cpp:137-151 | The record looked up has an `orderCount` of at least 1, and the local test decides as 10 * quantity * count < 3 * total over all processes does |
| FinalAnswers.RevenueAfter | cpp/FinalCompetitionCalculator.cpp:133-154 | From the reset on, in every interleaving, `underSales` is the query's revenue of the orders visited so far |
| FinalAnswers.UnderSalesAfter | cpp/FinalCompetitionCalculator.cpp:157-183 | After round 3 `underSales` is the process's own revenue, and after the predecessor's answer the sum along the chain |
| FinalAnswers.ServingAfterRound3 | cpp/server.cpp:170-175 | After round 3 a message that is read leaves `underSales` alone, except the predecessor's answer, which turns the own revenue into the sum along the chain |
| FinalAnswers.StepKeepsSysInv | cpp/FinalCompetitionCalculator.cpp:83-183 | Every step of every thread keeps the whole invariant of the query |
| FinalRecords.StepKeepsRecords | cpp/FinalCompetitionCalculator.cpp:83-151 | Every step of every thread keeps: a table holds the announced own rows, the parts of the kept orders and what has been merged; the received table holds exactly the ids of the records of the other processes; and, before the reset, `underSales` is the sum of these ids |
| FinalRecords.TablesHoldAllKeys | cpp/FinalCompetitionCalculator.cpp:86-129 | Once a process has merged what it received, its table has one record for every matching part of every process, because each process has sent a record of each of its own |
| FinalTermination.StepsAheadDecrease | cpp/FinalCompetitionCalculator.cpp:83-183 | Every step of every thread lowers a bounded measure of loops, rounds and hops |
| FinalTermination.StuckIsFinished | cpp/FinalCompetitionCalculator.cpp:157-183 | A state without an enabled step has every process through all barriers and all channels empty: there is no deadlock |
| EndToEnd.SelectedProcessHasAnswer | cpp/FinalCompetitionCalculator.cpp:83-183 | In every run, when `select_idx` leaves the last barrier its `underSales` is the answer of one machine that holds all parts and orders |
| EndToEnd.PollutionIsErased | cpp/server.cpp:162-175 | In every run, from the end of round 3 until it has read its predecessor's answer, for good at the process that gets none, `underSales` of a process is exactly its own revenue: nothing the fall-through added survives |
| EndToEnd.AllTablesAgree | cpp/FinalCompetitionCalculator.cpp:112-129 | In every run, after round 3 the table of every process has exactly one record for each matching part of all processes, ordered or not, and none for any other; its columns are the sums over the orders of all processes |
| EndToEnd.OwnPartsAreRecorded | cpp/FinalCompetitionCalculator.cpp:86-106 | In every run, once a process is through its rows its table has a record for each matching row of its own, ordered or not; until it merges, the table holds these and the parts of its kept orders and no others |
| EndToEnd.FallThroughPollutes | cpp/server.cpp:162-175 | In every run, until the main thread resets it, `underSales` of a process is the sum of the part ids of all records it has received from the others; in round 3 before the reset, of all records these have sent |
| EndToEnd.ChainIsAnswer | cpp/FinalCompetitionCalculator.cpp:157-183 | The revenues summed in ring order from `select_idx` equal the one-machine answer, wherever the chain starts |
| EndToEnd.EveryRunEnds | cpp/FinalCompetitionCalculator.cpp:83-183 | No schedule runs for more than an explicit number of steps |
| EndToEnd.MaximalRunAnswers | cpp/FinalCompetitionCalculator.cpp:83-183 | A run that cannot be continued has all processes finished, the ring empty and the answer at `select_idx` |
| Query.Keys | cpp/FinalCompetitionCalculator.cpp:88-88 | The keys of the query are those of the parts with its container and both of its brand digits |
| Query.BelowAverageIsSmall | cpp/FinalCompetitionCalculator.cpp:139-150 | The program's comparison with 0.3 times the average is the query's integer comparison |
| Query.InsertAdds | cpp/PartSaleData.cpp:8-12 | Inserting or merging a record adds its columns to the sums of its key and touches no other key |
| Query.InsertKeepsDistinct | cpp/FinalCompetitionData.cpp:8-18 | A table keeps one record for each key and gains exactly the inserted key |
| Query.LookupIsSum | cpp/FinalCompetitionCalculator.cpp:139-140 | The record of a key holds the sums of that key |
| SaleTables.FinalCompetitionData.InsertPartData | cpp/FinalCompetitionData.cpp:8-18 | The hash stays a bijection onto the positions; a record with a new id joins the vector at the end, any other adds both its columns to the record with its id, and every other record stays |
| SaleTables.FinalCompetitionData.SolveAnOrder | cpp/FinalCompetitionData.cpp:21-23 | An order counts once, with its quantity, for its part |
| SaleTables.FinalCompetitionData.InsertReceivePartData | cpp/FinalCompetitionData.cpp:25-35 | The same for the table of received sales, leaving the other table alone |
| SaleTables.FinalCompetitionData.MergeData | cpp/FinalCompetitionData.cpp:37-41 | Afterwards the local table is the old one with every received record inserted |
| SaleTables.FinalCompetitionData.AddUnderSales | cpp/FinalCompetitionData.cpp:43-46 | Only `underSales` changes, by the given amount |
| SaleTables.FinalCompetitionData.SetUnderSales | cpp/FinalCompetitionData.cpp:48-51 | Only `underSales` changes, to the given amount |
| SaleTables.InsertAllAdds | cpp/FinalCompetitionData.cpp:37-41 | Inserting any list of records is map addition: sums add, keys unite, records stay distinct |
| SaleTables.InsertionOrderIsIrrelevant | cpp/FinalCompetitionData.cpp:8-41 | Two orders of inserting the same records give tables with equal keys and equal records |
| Processes.Calculator.constructor | cpp/Calculator.cpp:11-18 | A new calculator is the initial process of the transition system |
| Processes.Calculator.SendFinish | cpp/Calculator.cpp:154-165 | One token goes out, for the given round, with the counter of this process one higher and the others unchanged |
| Processes.Calculator.AllFinished | cpp/Calculator.cpp:167-173 | `checkFinish` is true if and only if every process has stamped the token |
| Processes.Calculator.MarkFinished | cpp/Calculator.cpp:196-196 | Setting the flag is the entering step of the barrier, whatever the server's flags are |
| Processes.Calculator.SendOwnToken | cpp/Calculator.cpp:197-197 | The first token carries the current round and only the own stamp |
| Processes.Calculator.MarkNotified | cpp/Calculator.cpp:201-201 | Leaving marks the current round and goes on to the next, whatever the server's flags are |
| Processes.Calculator.AnnounceParts | cpp/FinalCompetitionCalculator.cpp:86-95 | The loop over the parts makes the moves of round 0: the keys of exactly the matching rows join `partKeyMap` and the ids of the table, they and no others are sent, and no sum changes |
| Processes.Calculator.CollectLocalOrders | cpp/FinalCompetitionCalculator.cpp:99-106 | The loop over the orders makes the moves of round 1: the orders of known parts are kept in order, their parts join the table, their quantities and numbers its sums, and nothing is sent |
| Processes.Calculator.SendPartSales | cpp/FinalCompetitionCalculator.cpp:116-124 | The loop over the table makes the moves of round 2: every record is sent, in order, under the port of the process |
| Processes.Calculator.MergeAndSumUnderSales | cpp/FinalCompetitionCalculator.cpp:127-151 | `mergeData`, the reset and the loop over the kept orders make the moves of round 3: ids and sums of the received records join the table, and `underSales` is the price sum of the orders below 0.3 of the average in that table |
| Processes.Calculator.MergeIteration | cpp/FinalCompetitionCalculator.cpp:160-180 | One iteration of the `now` loop makes the moves of its round and sends an answer only in the process's own turn |
| Processes.Announcing | cpp/FinalCompetitionCalculator.cpp:86-95 | From any row on, the moves of round 0 add to keys, table and messages exactly the matching rows that are left |
| Processes.Collecting | cpp/FinalCompetitionCalculator.cpp:99-106 | From any order on, the moves of round 1 add to kept orders, ids and sums exactly the orders of known parts that are left |
| Processes.Server.OnFinish | cpp/server.cpp:58-109 | The tests of the `finish` case take the step of the transition system; a token is answered if and only if its round is `finish_index`, finished and not notified of, and it is not a full token for the second time; the thread is notified by the first full one |
| Processes.Server.OnData | cpp/server.cpp:150-175 | The cases `partKey`, `finalPart` and `finalAns` take the step of the transition system: a key goes on if and only if it was unknown, a part sale of another process joins the received table, adds its part id to `underSales` and goes on, an answer is added and does not |
| Processes.NowLoop | cpp/FinalCompetitionCalculator.cpp:157-183 | The loop with its wrap inside ends after N-1 iterations and visits every index but `select_idx` exactly once, in ring order |
| Undisturbed.RunsItsRound | cpp/FinalCompetitionCalculator.cpp:83-183 | From every reachable state the main thread alone can run to its next `doAsync`, and the tables and messages are then those its loops compute |
| BrandTables.BrandData.UpdateData | cpp/BrandData.cpp:7-21 | Afterwards the table is the old one with the order's record merged in; the hash stays right |
| BrandTables.BrandData.MergePartData | cpp/BrandData.cpp:23-34 | Afterwards the table is the old one with the record merged in; the hash stays right |
| BrandTables.BrandData.InsertUnderSale | cpp/BrandData.cpp:36-40 | The part joins the list at the end and its id joins the set |
| BrandTables.BrandData.ExistThisPart | cpp/BrandData.cpp:42-45 | True if and only if the list holds a part with this id |
| BrandTables.BrandData.TryInsertUnderSale | cpp/TotalData.cpp:97-104 | A part is inserted if and only if its id is new, and the result says which |
| BrandTables.MergeInKeepsIds | cpp/BrandData.cpp:23-34 | Merging keeps one record for each id and adds exactly the merged id |
| SalesSums.MergeInAdds | cpp/BrandData.cpp:23-34 | Merging adds the record's quantity and revenue to the sums of its id and of the whole table |
| SalesSums.RecordsFromSums | cpp/BrandData.cpp:7-34 | A table whose sums are those of a list of orders holds, record by record, the sales of these orders |
| SalesSums.MergeOrderIsIrrelevant | cpp/BrandData.cpp:23-34 | Two orders of merging the same records, each with brand and container of its part, give the same set of records, one for each id |
| SalesSums.UnderIsUnderSold | cpp/TotalData.cpp:125-155 | The comparison with 0.3 times the average selects exactly the parts under-sold over all orders |
| PartRows.IndexParts | cpp/dataReader.cpp:82-98 | `partIdHash` leads from exactly the loaded keys to the last row of each: no later row has the key |
| BaseSteps.StepKeepsSysInv | cpp/Calculator.cpp:54-118 | For any data, every step of every thread keeps the invariant of the base calculation |
| BaseSteps.OrderIsShortOfOwner | cpp/server.cpp:52-57 | For any data, an order on its way has not passed a process that stores its part |
| BaseSteps.UnderIsFresh | cpp/server.cpp:110-120 | For data with one owner for each part, the reader already lists the part of an under-sale message if and only if the message is on its second lap |
| BaseRouting.CountedIsFirst | cpp/server.cpp:52-57 | For any data, an order that a process has received and counted comes from another process, and no process on its way stores its part |
| BaseRouting.FirstOrdersArrive | cpp/Calculator.cpp:33-78 | For any data, when x has left the first barrier, every q no further from p than x has received and counted of p exactly the orders that meet their part at q first, in order |
| BaseRouting.TableIsShare | cpp/Calculator.cpp:33-78 | For any data, the table of a process that has left the first barrier has the sums over exactly the orders of all processes that meet their part there first |
| BaseRouting.SharesAreAll | cpp/Calculator.cpp:33-52 | Every order whose part is stored somewhere belongs to the share of exactly one process: the shares sum to all of them |
| BaseTotals.BookingsCount | cpp/Calculator.cpp:79-83 | The numbers of parts counted by the processes sum to the number of different parts if and only if no part is counted by two processes |
| BaseTotals.TotalsOfAnyData | cpp/Calculator.cpp:79-91 | For any data, after the second barrier the sales are the quantities of all orders whose part is stored, and the part count is right if and only if all orders of a part meet at one process |
| BaseFlow.StepKeepsFlow | cpp/server.cpp:52-57 | For any data, every step keeps: loop positions and tables are bounded, an order on its way has passed no process that stores its part, totals name their creator, and under-sale messages carry ordered parts |
| BaseTermination.StepsAheadDecrease | cpp/Calculator.cpp:54-118 | If every ordered part is stored somewhere, every step of every thread lowers a measure of loops, rounds and hops, two laps for an under-sale message |
| BaseTermination.EveryRunEnds | cpp/Calculator.cpp:54-118 | If every ordered part is stored somewhere, by however many processes, no schedule runs for more than an explicit number of steps |
| BaseTermination.EndlessRun | cpp/server.cpp:52-57 | If some ordered part is stored nowhere, there are runs of any length, in which its order circulates |
| BaseTermination.RunsEndExactlyIfStored | cpp/Calculator.cpp:33-52 | The runs of the base calculation are bounded if and only if every ordered part is stored somewhere |
| BaseTermination.StuckIsFinished | cpp/Calculator.cpp:54-118 | For any data, a reachable state without an enabled step has every process through all three barriers and all channels empty: there is no deadlock |
| BaseTheorems.OrdersArrive | cpp/Calculator.cpp:33-78 | When x has left the first barrier, every owner q no further from p than x has received exactly p's orders for q's parts, in order |
| BaseReach.OrdersReachExactly | cpp/Calculator.cpp:33-78 | In all runs of the base calculation: x leaving the first barrier guarantees that p's orders have arrived at q if and only if q is no further from p than x; otherwise a reachable state in which an order is still in a channel is built |
| BaseReach.AllAreCountedExactlyForTwo | cpp/Calculator.cpp:33-78 | That all orders are counted once anybody has left the first barrier holds of every configuration of n processes if and only if n == 2 |
| BaseTheorems.TableIsComplete | cpp/Calculator.cpp:33-78 | A process q has one record for each of its ordered parts, with the sums over the orders of all processes, once q itself has left the first barrier, or any process x that whatever is sent to q reaches no earlier than q |
| BaseTheorems.TotalsAgree | cpp/Calculator.cpp:79-91 | After the second barrier the part count is the number of ordered parts and the sales the sum of all quantities, at every process |
| BaseTheorems.ListsAreComplete | cpp/Calculator.cpp:94-118 | After the third barrier every list holds each under-sold part of every process, the own ones included, exactly once |
| BaseTheorems.OrdersAreCountedOnce | cpp/Calculator.cpp:33-52 | In every run an order on its way is short of its owner, and an owner that has left the first barrier has counted every order of its parts exactly once |
| BaseTheorems.ReportsAgree | cpp/Calculator.cpp:79-118 | In every run all processes end up with the right totals and with the right list |
| BaseTheorems.OrdersAreBookedOnce | cpp/Calculator.cpp:33-78 | In every run on any data, once all have left the first barrier, each order whose part is stored is in exactly one table, that of the first process on its way that stores the part, and the tables together sum to all of them |
| BaseTheorems.TotalsForAnyData | cpp/Calculator.cpp:79-91 | In every run: if every ordered part is stored, by however many processes, the sales are those of all orders at every process after the second barrier, and the part count is right if and only if all orders of each part meet at one process |
| BaseTheorems.MaximalRunReports | cpp/Calculator.cpp:54-118 | Total correctness: no run is longer than an explicit bound, and one that cannot be continued has every process through all barriers, the ring empty, and the right totals and list everywhere |
| BaseTheorems.MaximalRunTotals | cpp/Calculator.cpp:54-118 | If every ordered part is stored, no run is longer than an explicit bound, and one that cannot be continued has the sales of all orders at every process |
| BaseTheorems.ClosedProcessIsSilent | cpp/Calculator.cpp:114-116 | In every run, a process that has left the last barrier puts a message into its channel if and only if it reads an order, which is then one whose part nobody stores; so with every ordered part stored closing the connection loses nothing |
| BaseThread.Calculator.SolveOrder | cpp/Calculator.cpp:33-52 | An order for a stored part is counted here and not sent; any other is sent on and not counted |
| BaseThread.Calculator.SolveOrders | cpp/Calculator.cpp:61-75 | The loop over the orders makes the moves of round 0 and sends its messages in order |
| BaseThread.Calculator.ShareTotals | cpp/Calculator.cpp:79-89 | Counting, adding the local totals and sending them make the moves of round 1 |
| BaseThread.Calculator.ReportUnderSales | cpp/Calculator.cpp:94-112 | The search makes the moves of round 2, with the average fixed before the loop |
| BaseThread.Calculator.OnMessage | cpp/server.cpp:110-134 | The cases `order`, `underSale` and `totalData` take the step of the transition system and forward the same message or nothing |
| AdvancedSteps.EveryPartIsKnown | cpp/AdvancedCalculator.cpp:107-134 | Behind the first barrier every process knows the keys of all parts |
| AdvancedSteps.StepKeepsSysInv | cpp/AdvancedCalculator.cpp:107-196 | Every step of every thread keeps the invariant of the advanced calculation |
| AdvancedFlow.StepKeepsFlow | cpp/server.cpp:135-149 | For any data, every step keeps: loop positions are bounded, a table has one record for each of some ordered parts, a part table grows only by keys of parts, and messages carry keys of parts and orders that exist |
| AdvancedTermination.StepsAheadDecrease | cpp/AdvancedCalculator.cpp:107-196 | For any data, every step of every thread lowers a measure of loops, rounds and hops |
| AdvancedTermination.EveryRunEnds | cpp/AdvancedCalculator.cpp:53-100 | For any data, no schedule runs for more than an explicit number of steps |
| AdvancedTermination.StuckIsFinished | cpp/AdvancedCalculator.cpp:53-100 | For any data, a reachable state without an enabled step has every process through all barriers, its last loops done and all channels empty |
| AdvancedTheorems.PartsAreEverywhere | cpp/AdvancedCalculator.cpp:107-134 | In every run, after the first barrier, a process holds each row of the whole part table exactly once, and the part count it then sets is the number of all rows |
| AdvancedTheorems.TableArrives | cpp/AdvancedCalculator.cpp:153-196 | When the process after u has left the round of u's turn, it has merged the whole table of u, record by record |
| AdvancedTheorems.ChainIs | cpp/AdvancedCalculator.cpp:153-196 | In its turn a process holds, for every key, the sums over the orders of all processes from `select_idx` down to itself |
| AdvancedTheorems.SelectedTable | cpp/AdvancedCalculator.cpp:153-196 | After the chain `select_idx` has exactly one record for each ordered part, with quantity and revenue over all processes |
| AdvancedTheorems.ResultIsExact | cpp/TotalData.cpp:125-155 | When both final loops are done, `totalSales` is the sum of all quantities and the list is exactly the under-sold ordered parts |
| AdvancedTheorems.SelectedProcessReports | cpp/AdvancedCalculator.cpp:53-100 | The same for every run from the start of the program |
| AdvancedTheorems.MaximalRunReports | cpp/AdvancedCalculator.cpp:53-100 | Total correctness: no run is longer than an explicit bound, and one that cannot be continued has every process through all barriers, the ring empty, and the right total and list at `select_idx` |
| AdvancedTheorems.ClosedProcessIsSilent | cpp/AdvancedCalculator.cpp:53-62 | In every run, a process that has left the last barrier puts nothing more into its channel, so closing the connection loses nothing |
| AdvancedThread.Calculator.SendParts | cpp/AdvancedCalculator.cpp:110-125 | The loop, whose bound is read before parts arrive, makes the moves of round 0 and sends its messages in order |
| AdvancedThread.Calculator.SolveOrder | cpp/AdvancedCalculator.cpp:69-81 | The order is booked under its key with brand and container of the last row with that key; for a key without a row the lookup inserts position 0, the order gets brand and container of row 0, and `insertPart` will refuse that key from then on |
| AdvancedThread.Calculator.LocalCalculate | cpp/AdvancedCalculator.cpp:132-145 | Setting the part count and the loop over the orders, whether their parts are known or not, make the moves of round 1; a process with orders needs some row |
| AdvancedThread.Calculator.SendRecords | cpp/AdvancedCalculator.cpp:158-195 | One iteration of the `now` loop makes the moves of its round and sends the table only in the process's own turn |
| AdvancedThread.Calculator.Conclude | cpp/AdvancedCalculator.cpp:84-100 | `getTotalDatas` and `calculateUnderSale` make the moves of the last round |
| AdvancedThread.Calculator.OnMessage | cpp/server.cpp:135-149 | The cases `part`, with `insertPart`, and `partData` take the step of the transition system; a part whose key is in the hash, be it by a lookup, is refused, any other joins the table and goes on |
| Fields.IntegerRoundTrip | cpp/Utils.cpp:157-170 | A printed integer is read back if and only if it is not negative |
| Fields.SplitTerminated | cpp/Utils.cpp:136-144 | Fields without separators survive being joined |
| Fields.ScannersAgree | cpp/Utils.cpp:78-91 | The fraction loops of `loadOrder` and `unZipOrderString` read every numeral with at most one point alike |
| Fields.ScannersAgreeExactly | cpp/Utils.cpp:78-183 | On any text of digits and points they give the same value if and only if no digit other than 0 stands behind the second point |
| Fields.LeadingPointMatters | cpp/Utils.cpp:157-183 | A further point in front of a number leaves its value alone if and only if the number has no digit before its own point, or is 0 |
| Fields.OnePoint | cpp/Utils.cpp:136-139 | A printed price has exactly one point, and else only digits and possibly a sign |
| Fields.PriceForm | cpp/Utils.cpp:136-139 | A printed price has its sign in front if and only if it is negative, and exactly six digits behind the point |
| Fields.PriceRoundTrip | cpp/Utils.cpp:136-139 | A price with at most six decimals is read back exactly, by either loop, if and only if it is not negative |
| Wire.UnzipOrder | cpp/Utils.cpp:147-186 | On any body with three separators the single pass equals: split at the separators, then two integers without their points and a decimal, which starts with a point if one of the integers held one; without such points, the first and second field as integers and the third as decimal |
| Wire.PriceIsItsField | cpp/Utils.cpp:147-186 | The field of the price alone decides the price if and only if no point stands in the fields before it, or the field has no digit before its own point or only zeros |
| Wire.UnzipPart | cpp/Utils.cpp:201-230 | The single pass equals: split, then an integer, the last characters of the next two fields as brand digits, and a text |
| Wire.UnzipTotalData | cpp/Utils.cpp:243-266 | On any body with three separators the single pass equals: split, then three integers |
| Wire.UnzipPartData | cpp/Utils.cpp:281-315 | On any body the single pass equals: split, then an integer, brand digits and count without points, a decimal that starts with a point if one of them held one, and the rest as text without points and separators |
| Wire.UnzipPartSaleData | cpp/Utils.cpp:530-555 | The single pass equals: split, then part id, number of orders, quantity and sender as integers, in this order |
| Wire.UnzipStart | cpp/Utils.cpp:561-586 | The single pass equals: split, then an integer, a text and two brand digits, which are the characters of a field of two that does not start with 0 |
| Wire.LoadOrder | cpp/Utils.cpp:56-95 | On any row: an error if and only if there are fewer than six separators, else fields 1, 4 and 5 of the split row |
| Wire.LoadPart | cpp/Utils.cpp:98-134 | On any row with a container: fields 0, 3 and 6 of the split row; Brand#xy gives the brand digits x and y |
| RoundTrips.PartSaleRoundTrip | cpp/Utils.cpp:522-555 | A part sale and its sender are read back if and only if no number is negative |
| RoundTrips.TotalDataRoundTrip | cpp/Utils.cpp:232-266 | Totals are read back if and only if no number is negative |
| RoundTrips.NarrowingIsSafe | cpp/Utils.cpp:243-266 | Every intermediate value of the scanner of a printed total is below 2^31 if and only if the total is at least 48 below it |
| RoundTrips.OrderRoundTrip | cpp/Utils.cpp:136-186 | An order with at most six decimals is read back if and only if neither its integers nor its price are negative |
| RoundTrips.PrintedFieldsHaveNoPoint | cpp/Utils.cpp:136-139 | In no printed order and no printed part data a point stands in a field before the price |
| RoundTrips.PartRoundTrip | cpp/Utils.cpp:141-230 | A part is read back if and only if its key is not negative, its brand digits are digits and its container has no separator |
| RoundTrips.StartRoundTrip | cpp/Utils.cpp:557-586 | Any start message is read back if and only if its index is not negative, its container has no separator and its brand code is two digits of which the first is not 0 unless both are (or the code -3, which a minus sign stands for) |
| RoundTrips.PartDataRoundTrip | cpp/Utils.cpp:269-315 | Any part data with at most six decimals is read back if and only if id and price are not negative, brand digits and count can be told apart, and the container has neither separator nor point |
| RoundTrips.FallThroughReadsPartId | cpp/server.cpp:162-175 | What `finalAns` reads out of a `finalPart` body is the part id |
| RoundTrips.ParseFinish | cpp/server.cpp:66-77 | The loop splits the body at its first separator into round and counters |
| RoundTrips.FinishRoundTrip | cpp/server.cpp:66-77 | A token is read back: the round and every counter |
| RoundTrips.IncrementInPlace | cpp/Calculator.cpp:154-165 | Incrementing the character behind the prefix is the stamp of the process on the counters |
| RoundTrips.BodiesFit | head/message.h:14-18 | With 32-bit fields, a 64-bit total, brand digits 1 to 5, containers of at most 10 characters and at most 71 processes all bodies without a price have at most 82 characters, negative numbers included |
| RoundTrips.PricedBodiesFit | head/message.h:14-18 | With 32-bit fields an order with a price of at most 49 digits before the point has at most 82 characters, and so has part data with one of at most 37 |
| Frames.Strcpy | cpp/client.cpp:54-59 | The text and one terminator are written at the place given; every other byte stays |
| Frames.Message.Make | cpp/message.cpp:7-15 | The three arrays hold the head, the body, and the head followed by the body |
| Frames.Message.SetHead | cpp/message.cpp:65-116 | Both copies of the head are the character of the enumerator, each of the thirteen named |
| Frames.Message.SetBody | cpp/message.cpp:59-64 | Both copies of the body are the text, and the head stays |
| Frames.Message.Parse | cpp/message.cpp:25-46 | From any 84 bytes: the body is the C string behind the head, cut after 82 characters, stale bytes do not enter, and what the message sends on is head and body again |
| Frames.Message.GetHeadEnum | cpp/message.cpp:117-144 | The comparisons find the enumerator if and only if the head is its character, each of the twelve named, and answer `unknown` for every other head |
| Frames.Client.Send | cpp/client.cpp:54-59 | One frame of 84 bytes goes out: the message, a terminator, and behind it what the buffer held before; earlier frames stay |
| Frames.FrameRoundTrip | cpp/message.cpp:25-46 | Whatever stale bytes a frame holds, the receiver finds the head and body that were sent |
| Frames.Transmit | cpp/client.cpp:54-59 | From `message` through `client::send` to the parsing constructor, enumerator and body arrive |
| Frames.Relay | cpp/server.cpp:110-134 | Sent on as it was parsed, over any number of connections with any stale bytes in their buffers, a message arrives with the enumerator and the body it was sent with |
| Delivery.DeliverOrder | cpp/Utils.cpp:136-186 | Printed, framed, copied through both buffers, parsed and scanned: the server switches on `order`, and the order is the one sent if and only if no number of it is negative |
| Delivery.DeliverPart | cpp/client.cpp:38-42 | The same for a part: it arrives if and only if its key is not negative, its brand digits are digits and its container has no separator |
| Delivery.DeliverPartData | cpp/Utils.cpp:269-315 | The same for `underSale` and `partData`, under exactly the condition of the part-data round trip |
| Delivery.DeliverTotals | cpp/Utils.cpp:232-266 | The same for totals: they arrive if and only if no number is negative |
| Delivery.DeliverPartSale | cpp/client.cpp:61-63 | The same for a part sale: it arrives with its sender if and only if no number is negative, and the fall-through reads the part id out of the same body in any case |
| Delivery.DeliverPartKey | cpp/server.cpp:150-160 | Every part key arrives, negative ones included |
| Delivery.DeliverStart | cpp/client.cpp:34-37 | The same for a start message, under exactly the condition of its round trip |
| Delivery.DeliverFinish | cpp/server.cpp:66-77 | Every token arrives: its round and every counter |
| Loading.KeepRows | cpp/dataReader.cpp:162-177 | Process `index` of n keeps exactly the rows at (index + n - 2) % n and from there every n-th, in order, to the end of the table; for any index, as many as there are rows whose number, counted from 1, has the remainder index - 1 |
| Loading.KeptRows | cpp/dataReader.cpp:82-98 | The rows whose number, counted from 1, leaves the remainder index - 1 modulo n are these, for every table, index and n |
| Loading.SharesPartition | cpp/dataReader.cpp:82-98 | Every row of a table is kept by exactly one of the n processes |
| Loading.AnswerOfPermutation | cpp/dataReader.cpp:82-177 | The answer of the query does not depend on the order of the rows |
| Loading.AnswerForSharedTables | cpp/FinalCompetitionCalculator.cpp:83-183 | In every run on tables shared out by the loaders, `select_idx` shows the answer on the tables themselves |

## Left out

- Sockets, the asio library, closing and shutdown, and reuse of `msgToServer` while an asynchronous write is pending: a send is one atomic step.
- Lost and spurious wake-ups of the condition variable, and unsynchronised reads of hash maps by the two threads.
- N = 1.
- The `load` handshake of main.cpp, and that a process may be told of a query while it still loads its rows.
- The user interface (`QueryResponser`, `judgeInput`, `judgeInputExtended`, `split` at spaces, and which commands `dealInputParm` accepts: whether it does is part of the command), printing, sleeps, timing, random choices, opening files, the "divide" load mode: nothing in them spans two functions or depends on a state.
- Floating-point rounding, the decimal text of a `finalAns` message, the final division by 7 in the output.
- Wire.UnzipTotalData: computes with unbounded integers; from which total on the 32 bits of the program would overflow is `RoundTrips.NarrowingIsSafe`, what an overflow yields is undefined in C++.
- RoundTrips.PricedBodiesFit: for larger prices the body does not fit, and what `strcpy` then writes behind the arrays is not part of this model.
- BrandTables.BrandData.UpdateData: one table stands for the 5 x 5 tables of `TotalData`, so records are listed in order of insertion and not by brand, and the brand is a parameter.
- The per-brand totals `brandSales` and `brandSaleCount`, and `localSales` of the advanced calculation, which nothing reads afterwards.
- BaseTheorems.ListsAreComplete: is for data with one owner for each ordered part; with several owners each of them would test its share of the sales, and what the lists then hold is not stated.
- AdvancedTheorems.SelectedProcessReports: is for data in which the part of every order is in some table; others are booked with row 0 of their process, so that records of one key can differ in brand and land in different tables of `TotalData`.
- AdvancedThread.Calculator.LocalCalculate: requires a row if there are orders; without one `parts[0]` is undefined in C++.
- Undisturbed.RunsItsRound: covers the final query; the loops of the other two calculations are tied to the moves of their rounds by their own contracts.
- The mutex of `PartSaleData`; its `merge` is a function on records.
