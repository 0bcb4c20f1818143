# Crew switchboard and quest viewing of the quest tracker, in Dafny

The quest tracker lets adventurers join and leave the crews of quests that guild
commanders run. This project models the crew switchboard and the quest viewing
read side:

- the crew switchboard use case's `join` and `leave`. `join` loads the quest and
  its crew count. It refuses a full quest ("Quest is full"), then a quest that
  is neither Open nor Failed ("Quest is not joinable"). Otherwise it inserts the
  (adventurer, quest) junction row. `leave` refuses a quest that is neither Open
  nor Failed ("Quest is not leavable"), then deletes the pair's rows.
- the Postgres crew switchboard repository. It inserts one row, or deletes every
  row that matches both ids. It has no capacity, status, duplicate or existence
  check of its own.
- the quest viewing use case's `view_details` and `board_checking`. They pair
  each quest with the crew count of its own id.

Layout, one module per layer:

- `domain.dfy` (`Domain`): the quest, its status, the junction row, the read
  model, the errors and the capacity `MAX_ADVENTURERS_PER_QUEST` (assumed 4).
- `repositories.dfy` (`Repositories`): the junction table as the class
  `CrewSwitchboardPostgres`. Its field `rows: seq<Junction>` is what `Join` and
  `Leave` reassign. Row order carries no meaning; the contracts also state the
  effect on `multiset(rows)`. This module also holds the crew count `CountFor`,
  the delete `Without`, and the quest viewing repository's two reads.
- `crew_switchboard.dfy` (`CrewSwitchboard`): `JoinStep` and `LeaveStep` specify
  one request. The class `CrewSwitchboardUseCase` carries them out. `Serve` runs
  requests one after another, and lemmas about it prove the capacity invariant.
- `quest_viewing.dfy` (`QuestViewing`): the class `QuestViewingUseCase`.

Store failures are inputs. Each store call is given a flag saying whether it
gets a pooled connection: `JoinConnections`, `LeaveConnections` and
`ViewConnections`. For `board_checking`, the input is the set of quest ids
whose count query fails. A missing quest is reported as `Store(QuestNotFound)`.

Three behaviours of the code worth noting:

- `join` checks capacity before status. A full quest that is on its journey
  answers "Quest is full".
- `join` has no "already joined" check. The same adventurer can hold two rows in
  one quest (`JoinAdmitsDuplicate`). Any uniqueness would come from a table
  constraint, and the schema is not part of this model.
- `leave` of a pair with no row succeeds and changes nothing (`LeaveAbsentIsNoOp`).

## Model

| member | source | states |
|---|---|---|
| `Repositories.CountFor` | src/application/use_cases/crew_switchboard.rs:39-42 | the crew count the use case reads for a quest (its junction rows) is never more than the number of rows in the table |
| `Repositories.CountForConcat` | src/application/use_cases/crew_switchboard.rs:39-42 | the count over two parts of the table is the sum of the counts over the parts |
| `Repositories.CountForRemoveAt` | src/application/use_cases/crew_switchboard.rs:39-42 | taking one row out of the table lowers only its own quest's count, by one, and removes exactly that row from the multiset of rows |
| `Repositories.CountForMultiset` | src/infrastructure/postgres/repositories/crew_switchboard.rs:34-36 | the table is unordered: any two arrangements of the same rows give every quest the same count |
| `Repositories.Without` | src/infrastructure/postgres/repositories/crew_switchboard.rs:42-45 | the delete removes every copy of the (adventurer, quest) pair and keeps every other row with its multiplicity |
| `Repositories.CountForAppend` | src/infrastructure/postgres/repositories/crew_switchboard.rs:34-36 | inserting a row raises its own quest's count by one and leaves every other quest's count alone |
| `Repositories.CountForWithout` | src/infrastructure/postgres/repositories/crew_switchboard.rs:42-45 | deleting a pair lowers its quest's count by exactly the pair's copies and leaves other quests' counts alone |
| `Repositories.WithoutAbsent` | src/infrastructure/postgres/repositories/crew_switchboard.rs:40-47 | deleting a pair that has no row leaves the table unchanged |
| `Repositories.WithoutAppend` | src/infrastructure/postgres/repositories/crew_switchboard.rs:31-48 | deleting a pair also removes the row just inserted for it |
| `Repositories.CrewSwitchboardPostgres.Join` | src/infrastructure/postgres/repositories/crew_switchboard.rs:31-39 | without a connection it fails and changes nothing; otherwise it adds exactly one row for the pair, with no capacity, status or duplicate check |
| `Repositories.CrewSwitchboardPostgres.Leave` | src/infrastructure/postgres/repositories/crew_switchboard.rs:40-48 | without a connection it fails and changes nothing; otherwise it deletes every row matching both ids and answers Ok whether or not one existed |
| `Domain.RosterMutable` | src/application/use_cases/crew_switchboard.rs:44-45 | Open and Failed quests, and only those, let the crew change (the same condition guards leave at lines 70-71): each of the two is mutable, and a quest on its journey, completed or in any other status keeps its crew |
| `Domain.Message` | src/application/use_cases/crew_switchboard.rs:49-55 | the use cases' own errors read "Quest is full", "Quest is not joinable" and "Quest is not leavable" (the last at line 74), each text naming exactly one error |
| `CrewSwitchboard.JoinStep` | src/application/use_cases/crew_switchboard.rs:36-65 | join succeeds exactly when the quest loads, the count loads, the count is below the maximum, the status is Open or Failed and the insert connects; success adds exactly the requested pair and keeps the quest's count at most the maximum; any error leaves the rows unchanged; a failed quest lookup, then a failed count lookup, is returned before either guard runs; "full" takes precedence over "not joinable"; a failed insert returns the store error |
| `CrewSwitchboard.LeaveStep` | src/application/use_cases/crew_switchboard.rs:67-85 | leave succeeds exactly when the quest loads, its status is Open or Failed and the delete connects; success removes every copy of the pair and nothing else; a failed quest lookup, "not leavable" and a failed delete each return their own error and leave the rows unchanged |
| `CrewSwitchboard.CrewSwitchboardUseCase.Join` | src/application/use_cases/crew_switchboard.rs:36-65 | the answer and the new junction rows are those of `JoinStep`; the quests table, and so every quest's status, is unchanged |
| `CrewSwitchboard.CrewSwitchboardUseCase.Leave` | src/application/use_cases/crew_switchboard.rs:67-85 | the answer and the new junction rows are those of `LeaveStep`, without a count query; the quests table is unchanged |
| `CrewSwitchboard.JoinKeepsCapacity` | src/application/use_cases/crew_switchboard.rs:47-62 | if every quest's count is at most the maximum before a join, it still is after it |
| `CrewSwitchboard.LeaveLowersCounts` | src/application/use_cases/crew_switchboard.rs:77-82 | a leave never raises any quest's count |
| `CrewSwitchboard.ServeKeepsCapacity` | src/application/use_cases/crew_switchboard.rs:36-85 | serving any sequence of joins and leaves one at a time, from a table within capacity, never puts a quest over the maximum |
| `CrewSwitchboard.ServeFreezesClosedQuest` | src/application/use_cases/crew_switchboard.rs:44-55 | the count of a missing quest, or of one that is neither Open nor Failed, is unchanged by any sequence of requests |
| `CrewSwitchboard.LeaveUndoesJoin` | src/application/use_cases/crew_switchboard.rs:57-82 | after an adventurer without a row joins, leaving restores the junction rows exactly |
| `CrewSwitchboard.LeaveAbsentIsNoOp` | src/infrastructure/postgres/repositories/crew_switchboard.rs:40-47 | leaving an Open or Failed quest one is not in succeeds and changes nothing |
| `CrewSwitchboard.FailedQuestAdmits` | src/application/use_cases/crew_switchboard.rs:44-85 | a Failed quest with room is open for recruitment again: with every store call connected a join succeeds and adds the pair, and a leave succeeds and deletes it |
| `CrewSwitchboard.LeaveIgnoresOccupancy` | src/application/use_cases/crew_switchboard.rs:67-75 | leave's answer is the same whatever the crew, so a full quest can still be left |
| `CrewSwitchboard.JoinAdmitsDuplicate` | src/application/use_cases/crew_switchboard.rs:57-62 | an adventurer already in a crew with room joins again successfully and then holds two rows |
| `CrewSwitchboard.JoinTestCases` | src/application/use_cases/crew_switchboard_test.rs:21-145 | crew of two in an Open quest: join succeeds; the same crew on its journey: "Quest is not joinable"; a full Open quest: "Quest is full" |
| `CrewSwitchboard.LeaveTestCases` | src/application/use_cases/crew_switchboard_test.rs:147-225 | leaving an Open quest succeeds and removes the row; leaving a quest on its journey: "Quest is not leavable" with the row kept |
| `CrewSwitchboard.ScenarioFourJoin` | src/application/use_cases/crew_switchboard.rs:47-62 | four adventurers join an empty Open quest in turn, each successfully, leaving a crew of four |
| `CrewSwitchboard.ScenarioFifthRefused` | src/application/use_cases/crew_switchboard.rs:47-51 | with four in the crew a fifth join answers "Quest is full" and changes nothing |
| `CrewSwitchboard.ScenarioOneLeaves` | src/application/use_cases/crew_switchboard.rs:67-85 | one of the four leaves and the crew is three |
| `CrewSwitchboard.ScenarioFifthAdmitted` | src/application/use_cases/crew_switchboard.rs:47-62 | the fifth adventurer then joins and the crew is four again |
| `QuestViewing.QuestViewingUseCase.ViewDetails` | src/application/use_cases/quest_viewing.rs:27-38 | succeeds exactly when the quest and its count both load, and then returns that quest's model with the count of the same quest id; a failed quest lookup is the answer whatever the count query would give |
| `QuestViewing.QuestViewingUseCase.BoardChecking` | src/application/use_cases/quest_viewing.rs:40-55 | one model per quest the board query returned, in the same order, each with the count of its own id (so an empty result gives an empty list); a board-query error or any count error makes the whole answer an error, with no partial list |

## Left out

- HTTP routing, authorisation middleware, configuration, startup, connection-pool setup and logging (including the `println!` in `board_checking`) are I/O around the core.
- Concurrency: requests are modelled one at a time. Two concurrent joins can both read a count below the maximum and both insert. The code has no lock or transaction against this, so the capacity invariant is proved only for sequential service.
- The quest lifecycle transitions (`in_journey`, `to_completed`, `to_failed`) are `unimplemented!()` in src/application/use_cases/journey_ledger.rs, so no status ever changes in this model.
- The quest viewing repository's queries (lookup, count and filter) are not modelled from their source; the class `QuestViewingPostgres` stands in for the lookup and the count. Loading a quest is modelled as a map lookup that fails with `QuestNotFound` for a missing id. The count is modelled as `CountFor` over the junction rows. The board query's result, with its filter matching and order, is an input of `BoardChecking`.
- `to_model` and the `QuestModel` struct are not part of this model. `ToModel` pairs the quest's fields with the count.
- The status is stored as text. It is modelled as `QuestStatus`, and any unrecognised text is one more status that is neither Open nor Failed.
- Database constraints are not part of this model (a unique or foreign key on the junction table, say). An insert or delete fails only when it gets no connection.
- `MAX_ADVENTURERS_PER_QUEST`: the use case imports it from the quest_adventurer_junction module (src/application/use_cases/crew_switchboard.rs:10), whose definition is not part of this model; its value is taken to be 4. Only the four `Scenario…` lemmas and the test-case lemmas depend on that value; the capacity lemmas hold for any value.
- Timestamps, 32-bit id width and 64-bit count width are not modelled; ids and counts are unbounded integers.
- The text of store errors comes from the database library. `Message` gives only the use cases' own three messages.
