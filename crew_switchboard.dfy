/**
 * The crew switchboard use case: an adventurer joins or leaves a quest's crew.
 * `JoinStep` and `LeaveStep` say what one request does to the junction rows
 * and what it answers; the use-case class carries them out against the two
 * repositories; `Serve` runs requests one after another, and the lemmas at the
 * end prove that sequential service never puts a quest over capacity.
 */
module CrewSwitchboard {
  import opened Domain
  import opened Repositories

  /** Whether each store call of one join obtains a database connection. */
  datatype JoinConnections = JoinConnections(questLookup: bool, countLookup: bool, insert: bool)

  /** Whether each store call of one leave obtains a database connection. */
  datatype LeaveConnections = LeaveConnections(questLookup: bool, delete: bool)

  /** The answer to one request and the junction rows after it. */
  datatype Step = Step(outcome: Result<()>, rows: seq<Junction>)

  /**
   * Joining: load the quest, then its crew count; refuse a full quest, then a
   * quest that is neither Open nor Failed; otherwise insert the pair.
   */
  function JoinStep(quests: map<int, Quest>, rows: seq<Junction>, questId: int, adventurerId: int,
                    connections: JoinConnections): (s: Step)
    // success exactly when every guard passes and every store call connects
    ensures s.outcome.Ok? <==>
      connections.questLookup && questId in quests && connections.countLookup &&
      CountFor(rows, questId) < MAX_ADVENTURERS_PER_QUEST &&
      RosterMutable(quests[questId].status) && connections.insert
    // success adds exactly the requested pair; any error leaves the rows as they were
    ensures s.outcome.Ok? ==> s.rows == rows + [Junction(adventurerId, questId)]
    ensures s.outcome.Err? ==> s.rows == rows
    // a failed quest lookup is reported before anything else
    ensures !connections.questLookup ==> s.outcome == Err(Store(ConnectionUnavailable))
    ensures connections.questLookup && questId !in quests ==> s.outcome == Err(Store(QuestNotFound))
    // a full quest is reported as full whatever its status
    ensures (connections.questLookup && questId in quests && connections.countLookup &&
             CountFor(rows, questId) >= MAX_ADVENTURERS_PER_QUEST) ==> s.outcome == Err(QuestIsFull)
    ensures (connections.questLookup && questId in quests && connections.countLookup &&
             CountFor(rows, questId) < MAX_ADVENTURERS_PER_QUEST &&
             !RosterMutable(quests[questId].status)) ==> s.outcome == Err(QuestNotJoinable)
    // a failed count lookup is reported before either guard runs
    ensures (connections.questLookup && questId in quests && !connections.countLookup) ==>
            s.outcome == Err(Store(ConnectionUnavailable))
    // a failed insert is reported as the store error
    ensures (connections.questLookup && questId in quests && connections.countLookup &&
             CountFor(rows, questId) < MAX_ADVENTURERS_PER_QUEST &&
             RosterMutable(quests[questId].status) && !connections.insert) ==>
            s.outcome == Err(Store(ConnectionUnavailable))
    // the quest's crew stays within capacity after a successful join
    ensures s.outcome.Ok? ==> CountFor(s.rows, questId) == CountFor(rows, questId) + 1 <= MAX_ADVENTURERS_PER_QUEST
  {
    match QuestLookup(quests, questId, connections.questLookup)
    case Err(e) => Step(Err(e), rows)
    case Ok(quest) =>
      match CountLookup(rows, questId, connections.countLookup)
      case Err(e) => Step(Err(e), rows)
      case Ok(count) =>
        if !(count < MAX_ADVENTURERS_PER_QUEST) then Step(Err(QuestIsFull), rows)
        else if !RosterMutable(quest.status) then Step(Err(QuestNotJoinable), rows)
        else if !connections.insert then Step(Err(Store(ConnectionUnavailable)), rows)
        else
          var junction := Junction(adventurerId, questId);
          CountForAppend(rows, junction, questId);
          Step(Ok(()), rows + [junction])
  }

  /**
   * Leaving: load the quest; refuse a quest that is neither Open nor Failed;
   * otherwise delete the pair's rows. The crew count is not consulted.
   */
  function LeaveStep(quests: map<int, Quest>, rows: seq<Junction>, questId: int, adventurerId: int,
                     connections: LeaveConnections): (s: Step)
    ensures s.outcome.Ok? <==>
      connections.questLookup && questId in quests &&
      RosterMutable(quests[questId].status) && connections.delete
    // success removes every row of the pair and keeps every other row
    ensures s.outcome.Ok? ==> multiset(s.rows) == multiset(rows)[Junction(adventurerId, questId) := 0]
    ensures s.outcome.Err? ==> s.rows == rows
    ensures !connections.questLookup ==> s.outcome == Err(Store(ConnectionUnavailable))
    ensures connections.questLookup && questId !in quests ==> s.outcome == Err(Store(QuestNotFound))
    ensures (connections.questLookup && questId in quests &&
             !RosterMutable(quests[questId].status)) ==> s.outcome == Err(QuestNotLeavable)
    // a failed delete is reported as the store error
    ensures (connections.questLookup && questId in quests &&
             RosterMutable(quests[questId].status) && !connections.delete) ==>
            s.outcome == Err(Store(ConnectionUnavailable))
  {
    match QuestLookup(quests, questId, connections.questLookup)
    case Err(e) => Step(Err(e), rows)
    case Ok(quest) =>
      if !RosterMutable(quest.status) then Step(Err(QuestNotLeavable), rows)
      else if !connections.delete then Step(Err(Store(ConnectionUnavailable)), rows)
      else Step(Ok(()), Without(rows, Junction(adventurerId, questId)))
  }

  /** The use case, holding the two repositories it reads and writes. */
  class CrewSwitchboardUseCase {
    const crewSwitchboardRepository: CrewSwitchboardPostgres
    const questViewingRepository: QuestViewingPostgres

    /** Both repositories work on the same database. */
    predicate Valid()
    {
      questViewingRepository.junctionTable == crewSwitchboardRepository
    }

    constructor (crewSwitchboardRepository: CrewSwitchboardPostgres, questViewingRepository: QuestViewingPostgres)
      requires questViewingRepository.junctionTable == crewSwitchboardRepository
      ensures Valid()
      ensures this.crewSwitchboardRepository == crewSwitchboardRepository
      ensures this.questViewingRepository == questViewingRepository
    {
      this.crewSwitchboardRepository := crewSwitchboardRepository;
      this.questViewingRepository := questViewingRepository;
    }

    method Join(questId: int, adventurerId: int, connections: JoinConnections) returns (r: Result<()>)
      requires Valid()
      modifies crewSwitchboardRepository
      ensures var s := JoinStep(old(questViewingRepository.quests), old(crewSwitchboardRepository.rows),
                                questId, adventurerId, connections);
              r == s.outcome && crewSwitchboardRepository.rows == s.rows
      ensures questViewingRepository.quests == old(questViewingRepository.quests)
    {
      var quest := questViewingRepository.ViewDetails(questId, connections.questLookup);
      if quest.Err? {
        return Err(quest.error);
      }
      var adventurersCount := questViewingRepository.AdventurersCountingByQuestId(questId, connections.countLookup);
      if adventurersCount.Err? {
        return Err(adventurersCount.error);
      }

      var questStatusCondition := RosterMutable(quest.value.status);
      var adventurersCountCondition := adventurersCount.value < MAX_ADVENTURERS_PER_QUEST;

      if !adventurersCountCondition {
        return Err(QuestIsFull);
      }
      if !questStatusCondition {
        return Err(QuestNotJoinable);
      }

      r := crewSwitchboardRepository.Join(Junction(adventurerId, questId), connections.insert);
    }

    method Leave(questId: int, adventurerId: int, connections: LeaveConnections) returns (r: Result<()>)
      requires Valid()
      modifies crewSwitchboardRepository
      ensures var s := LeaveStep(old(questViewingRepository.quests), old(crewSwitchboardRepository.rows),
                                 questId, adventurerId, connections);
              r == s.outcome && crewSwitchboardRepository.rows == s.rows
      ensures questViewingRepository.quests == old(questViewingRepository.quests)
    {
      var quest := questViewingRepository.ViewDetails(questId, connections.questLookup);
      if quest.Err? {
        return Err(quest.error);
      }

      var leavingCondition := RosterMutable(quest.value.status);
      if !leavingCondition {
        return Err(QuestNotLeavable);
      }

      r := crewSwitchboardRepository.Leave(Junction(adventurerId, questId), connections.delete);
    }
  }

  /** One request to the switchboard, with the connections its store calls get. */
  datatype Request =
    | JoinRequest(questId: int, adventurerId: int, joinConnections: JoinConnections)
    | LeaveRequest(questId: int, adventurerId: int, leaveConnections: LeaveConnections)

  function Apply(quests: map<int, Quest>, rows: seq<Junction>, request: Request): Step
  {
    match request
    case JoinRequest(q, a, c) => JoinStep(quests, rows, q, a, c)
    case LeaveRequest(q, a, c) => LeaveStep(quests, rows, q, a, c)
  }

  /** The junction rows after serving `requests` one at a time, in order. */
  function Serve(quests: map<int, Quest>, rows: seq<Junction>, requests: seq<Request>): seq<Junction>
    decreases |requests|
  {
    if requests == [] then rows
    else Serve(quests, Apply(quests, rows, requests[0]).rows, requests[1..])
  }

  /** A join never takes any quest over capacity. */
  lemma JoinKeepsCapacity(quests: map<int, Quest>, rows: seq<Junction>, questId: int, adventurerId: int,
                          connections: JoinConnections)
    requires WithinCapacity(rows)
    ensures WithinCapacity(JoinStep(quests, rows, questId, adventurerId, connections).rows)
  {
    var s := JoinStep(quests, rows, questId, adventurerId, connections);
    if s.outcome.Ok? {
      forall q ensures CountFor(s.rows, q) <= MAX_ADVENTURERS_PER_QUEST {
        CountForAppend(rows, Junction(adventurerId, questId), q);
      }
    }
  }

  /** A leave never raises any quest's count. */
  lemma LeaveLowersCounts(quests: map<int, Quest>, rows: seq<Junction>, questId: int, adventurerId: int,
                          connections: LeaveConnections, q: int)
    ensures CountFor(LeaveStep(quests, rows, questId, adventurerId, connections).rows, q) <= CountFor(rows, q)
  {
    var s := LeaveStep(quests, rows, questId, adventurerId, connections);
    if s.outcome.Ok? {
      CountForWithout(rows, Junction(adventurerId, questId), q);
    }
  }

  /** Capacity invariant: serving requests one at a time keeps every quest within capacity. */
  lemma {:induction false} ServeKeepsCapacity(quests: map<int, Quest>, rows: seq<Junction>, requests: seq<Request>)
    requires WithinCapacity(rows)
    ensures WithinCapacity(Serve(quests, rows, requests))
    decreases |requests|
  {
    if requests != [] {
      var next := Apply(quests, rows, requests[0]).rows;
      match requests[0] {
        case JoinRequest(q, a, c) =>
          JoinKeepsCapacity(quests, rows, q, a, c);
        case LeaveRequest(q, a, c) =>
          forall q' ensures CountFor(next, q') <= MAX_ADVENTURERS_PER_QUEST {
            LeaveLowersCounts(quests, rows, q, a, c, q');
          }
      }
      ServeKeepsCapacity(quests, next, requests[1..]);
    }
  }

  /**
   * The crew of a quest that is missing or whose status is neither Open nor
   * Failed does not change, whatever requests are served.
   */
  lemma {:induction false} ServeFreezesClosedQuest(quests: map<int, Quest>, rows: seq<Junction>,
                                                   requests: seq<Request>, questId: int)
    requires questId !in quests || !RosterMutable(quests[questId].status)
    ensures CountFor(Serve(quests, rows, requests), questId) == CountFor(rows, questId)
    decreases |requests|
  {
    if requests != [] {
      var s := Apply(quests, rows, requests[0]);
      if s.outcome.Ok? {
        match requests[0] {
          case JoinRequest(q, a, c) =>
            CountForAppend(rows, Junction(a, q), questId);
          case LeaveRequest(q, a, c) =>
            CountForWithout(rows, Junction(a, q), questId);
        }
      }
      ServeFreezesClosedQuest(quests, s.rows, requests[1..], questId);
    }
  }

  /**
   * Leave undoes join: after an adventurer who had no row joins a quest,
   * leaving it while it still admits crew changes restores the rows exactly.
   */
  lemma LeaveUndoesJoin(quests: map<int, Quest>, rows: seq<Junction>, questId: int, adventurerId: int,
                        joinConnections: JoinConnections, leaveConnections: LeaveConnections)
    requires Junction(adventurerId, questId) !in rows
    requires JoinStep(quests, rows, questId, adventurerId, joinConnections).outcome.Ok?
    requires leaveConnections.questLookup && leaveConnections.delete
    ensures var joined := JoinStep(quests, rows, questId, adventurerId, joinConnections).rows;
            LeaveStep(quests, joined, questId, adventurerId, leaveConnections) == Step(Ok(()), rows)
  {
    var junction := Junction(adventurerId, questId);
    WithoutAppend(rows, junction);
    WithoutAbsent(rows, junction);
  }

  /** Leaving when not in the crew succeeds and changes nothing. */
  lemma LeaveAbsentIsNoOp(quests: map<int, Quest>, rows: seq<Junction>, questId: int, adventurerId: int,
                          connections: LeaveConnections)
    requires Junction(adventurerId, questId) !in rows
    requires connections.questLookup && questId in quests && RosterMutable(quests[questId].status)
    requires connections.delete
    ensures LeaveStep(quests, rows, questId, adventurerId, connections) == Step(Ok(()), rows)
  {
    WithoutAbsent(rows, Junction(adventurerId, questId));
  }

  /**
   * A Failed quest is open for recruitment again: with room and every store
   * call connected, a join succeeds and a member can leave.
   */
  lemma FailedQuestAdmits(quests: map<int, Quest>, rows: seq<Junction>, questId: int, adventurerId: int)
    requires questId in quests && quests[questId].status == Failed
    requires CountFor(rows, questId) < MAX_ADVENTURERS_PER_QUEST
    ensures JoinStep(quests, rows, questId, adventurerId, JoinConnections(true, true, true))
         == Step(Ok(()), rows + [Junction(adventurerId, questId)])
    ensures LeaveStep(quests, rows, questId, adventurerId, LeaveConnections(true, true))
         == Step(Ok(()), Without(rows, Junction(adventurerId, questId)))
  {
  }

  /** Leave's answer does not depend on the crew, full or not. */
  lemma LeaveIgnoresOccupancy(quests: map<int, Quest>, rows: seq<Junction>, rows': seq<Junction>,
                              questId: int, adventurerId: int, connections: LeaveConnections)
    ensures LeaveStep(quests, rows, questId, adventurerId, connections).outcome
         == LeaveStep(quests, rows', questId, adventurerId, connections).outcome
  {
  }

  /**
   * No duplicate check: an adventurer already in a crew that still has room
   * joins again and then holds two rows.
   */
  lemma JoinAdmitsDuplicate(quests: map<int, Quest>, rows: seq<Junction>, questId: int, adventurerId: int,
                            connections: JoinConnections)
    requires Junction(adventurerId, questId) in rows
    requires connections.questLookup && connections.countLookup && connections.insert
    requires questId in quests && RosterMutable(quests[questId].status)
    requires CountFor(rows, questId) < MAX_ADVENTURERS_PER_QUEST
    ensures var s := JoinStep(quests, rows, questId, adventurerId, connections);
            s.outcome == Ok(()) &&
            multiset(s.rows)[Junction(adventurerId, questId)] == multiset(rows)[Junction(adventurerId, questId)] + 1 >= 2
  {
  }

  /** A quest with the given id and status, as the switchboard's scenarios use it. */
  function SampleQuest(id: int, status: QuestStatus): Quest
  {
    Quest(id, "test", Some("test"), status, 1)
  }

  /**
   * The unit-test cases of the join use case: a crew of two in an Open quest
   * admits adventurer 1; the same crew in a quest on its journey is not
   * joinable; a full Open quest is full.
   */
  lemma JoinTestCases()
    ensures var up := JoinConnections(true, true, true);
            var two := [Junction(7, 1), Junction(8, 1)];
            var full := [Junction(5, 1), Junction(6, 1), Junction(7, 1), Junction(8, 1)];
            && JoinStep(map[1 := SampleQuest(1, Open)], two, 1, 1, up).outcome == Ok(())
            && JoinStep(map[1 := SampleQuest(1, InJourney)], two, 1, 1, up).outcome == Err(QuestNotJoinable)
            && Message(QuestNotJoinable) == "Quest is not joinable"
            && JoinStep(map[1 := SampleQuest(1, Open)], full, 1, 1, up).outcome == Err(QuestIsFull)
            && Message(QuestIsFull) == "Quest is full"
  {
  }

  /**
   * The unit-test cases of the leave use case: leaving an Open quest succeeds;
   * leaving a quest on its journey is not allowed.
   */
  lemma LeaveTestCases()
    ensures var up := LeaveConnections(true, true);
            var one := [Junction(1, 1)];
            && LeaveStep(map[1 := SampleQuest(1, Open)], one, 1, 1, up) == Step(Ok(()), [])
            && LeaveStep(map[1 := SampleQuest(1, InJourney)], one, 1, 1, up) == Step(Err(QuestNotLeavable), one)
            && Message(QuestNotLeavable) == "Quest is not leavable"
  {
  }

  /** The Open quest and the crews of the scenario below. */
  const ScenarioQuests := map[1 := SampleQuest(1, Open)]
  const FourCrew := [Junction(11, 1), Junction(12, 1), Junction(13, 1), Junction(14, 1)]
  const ThreeCrew := [Junction(11, 1), Junction(13, 1), Junction(14, 1)]
  const AllJoinConnections := JoinConnections(true, true, true)

  /** Four adventurers join an empty Open quest one after another. */
  lemma ScenarioFourJoin()
    ensures JoinStep(ScenarioQuests, [], 1, 11, AllJoinConnections) == Step(Ok(()), FourCrew[..1])
    ensures JoinStep(ScenarioQuests, FourCrew[..1], 1, 12, AllJoinConnections) == Step(Ok(()), FourCrew[..2])
    ensures JoinStep(ScenarioQuests, FourCrew[..2], 1, 13, AllJoinConnections) == Step(Ok(()), FourCrew[..3])
    ensures JoinStep(ScenarioQuests, FourCrew[..3], 1, 14, AllJoinConnections) == Step(Ok(()), FourCrew)
    ensures CountFor(FourCrew, 1) == 4
  {
  }

  /** With four in the crew a fifth adventurer is turned away as the quest is full. */
  lemma ScenarioFifthRefused()
    ensures JoinStep(ScenarioQuests, FourCrew, 1, 15, AllJoinConnections) == Step(Err(QuestIsFull), FourCrew)
  {
  }

  /** One of the four leaves, and the crew is three. */
  lemma ScenarioOneLeaves()
    ensures LeaveStep(ScenarioQuests, FourCrew, 1, 12, LeaveConnections(true, true)) == Step(Ok(()), ThreeCrew)
    ensures CountFor(ThreeCrew, 1) == 3
  {
    ScenarioDelete();
  }

  /** Deleting adventurer 12 from the crew of four leaves the other three. */
  lemma ScenarioDelete()
    ensures Without(FourCrew, Junction(12, 1)) == ThreeCrew
  {
    var leaving := Junction(12, 1);
    assert Without(FourCrew[3..], leaving) == ThreeCrew[2..];
    assert Without(FourCrew[2..], leaving) == ThreeCrew[1..];
    assert Without(FourCrew[1..], leaving) == ThreeCrew[1..];
  }

  /** The fifth adventurer now joins, and the crew is four again. */
  lemma ScenarioFifthAdmitted()
    ensures JoinStep(ScenarioQuests, ThreeCrew, 1, 15, AllJoinConnections) == Step(Ok(()), ThreeCrew + [Junction(15, 1)])
    ensures CountFor(ThreeCrew + [Junction(15, 1)], 1) == 4
  {
  }
}
