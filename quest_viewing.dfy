/**
 * The quest viewing use case: the read model of one quest, or of every quest
 * on the board that a filter selects, each paired with its crew size.
 */
module QuestViewing {
  import opened Domain
  import opened Repositories

  /** Whether each store call of one view_details obtains a database connection. */
  datatype ViewConnections = ViewConnections(questLookup: bool, countLookup: bool)

  class QuestViewingUseCase {
    const questViewingRepository: QuestViewingPostgres

    constructor (questViewingRepository: QuestViewingPostgres)
      ensures this.questViewingRepository == questViewingRepository
    {
      this.questViewingRepository := questViewingRepository;
    }

    /**
     * The model of quest `questId` with the number of junction rows of that
     * same quest. A failed quest lookup is the answer whatever the count
     * query would have returned.
     */
    method ViewDetails(questId: int, connections: ViewConnections) returns (r: Result<QuestModel>)
      ensures r.Ok? <==>
        connections.questLookup && questId in questViewingRepository.quests && connections.countLookup
      ensures r.Ok? ==>
        r.value == ToModel(questViewingRepository.quests[questId],
                           CountFor(questViewingRepository.junctionTable.rows, questId))
      ensures !connections.questLookup ==> r == Err(Store(ConnectionUnavailable))
      ensures connections.questLookup && questId !in questViewingRepository.quests ==>
        r == Err(Store(QuestNotFound))
      ensures connections.questLookup && questId in questViewingRepository.quests && !connections.countLookup ==>
        r == Err(Store(ConnectionUnavailable))
    {
      var result := questViewingRepository.ViewDetails(questId, connections.questLookup);
      if result.Err? {
        return Err(result.error);
      }
      var adventurersCount := questViewingRepository.AdventurersCountingByQuestId(questId, connections.countLookup);
      if adventurersCount.Err? {
        return Err(adventurersCount.error);
      }
      r := Ok(ToModel(result.value, adventurersCount.value));
    }

    /**
     * One model per quest that the board query `results` returned, in the
     * same order, each with the crew count of its own quest id. An error of
     * the board query, or of the count query of any quest (those whose id is
     * in `countUnavailable`), is the whole answer: no partial list.
     */
    method BoardChecking(results: Result<seq<Quest>>, countUnavailable: set<int>) returns (r: Result<seq<QuestModel>>)
      ensures results.Err? ==> r == Err(results.error)
      ensures results.Ok? ==>
        (r.Ok? <==> forall i :: 0 <= i < |results.value| ==> results.value[i].id !in countUnavailable)
      ensures results.Ok? && r.Err? ==> r.error == Store(ConnectionUnavailable)
      ensures r.Ok? ==> results.Ok? && |r.value| == |results.value|
      ensures r.Ok? ==> forall i :: 0 <= i < |r.value| ==>
        r.value[i] == ToModel(results.value[i], CountFor(questViewingRepository.junctionTable.rows, results.value[i].id))
    {
      if results.Err? {
        return Err(results.error);
      }
      var quests := results.value;
      var questsModel: seq<QuestModel> := [];
      var i := 0;
      while i < |quests|
        invariant 0 <= i <= |quests|
        invariant |questsModel| == i
        invariant forall k :: 0 <= k < i ==> quests[k].id !in countUnavailable
        invariant forall k :: 0 <= k < i ==>
          questsModel[k] == ToModel(quests[k], CountFor(questViewingRepository.junctionTable.rows, quests[k].id))
      {
        var quest := quests[i];
        var adventurersCount := questViewingRepository.AdventurersCountingByQuestId(quest.id, quest.id !in countUnavailable);
        if adventurersCount.Err? {
          return Err(adventurersCount.error);
        }
        questsModel := questsModel + [ToModel(quest, adventurersCount.value)];
        i := i + 1;
      }
      r := Ok(questsModel);
    }
  }
}
