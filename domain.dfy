/**
 * Entities and value objects of the quest tracker that the crew switchboard
 * and quest viewing use cases work on: quests, their statuses, the
 * (adventurer, quest) junction rows that make up a quest's crew, the read
 * model shown to clients, and the errors the use cases return.
 */
module Domain {

  datatype Option<+T> = None | Some(value: T)

  /**
   * A quest's status. The store keeps it as text. Each of the four known
   * statuses always uses its own constructor; `Unrecognised` holds only a
   * text that is none of the four, and, like every status other than Open and
   * Failed, does not allow the crew to change.
   */
  datatype QuestStatus = Open | InJourney | Completed | Failed | Unrecognised(text: string)

  /** A row of the quests table (timestamps are not modelled). */
  datatype Quest = Quest(
    id: int,
    name: string,
    description: Option<string>,
    status: QuestStatus,
    guildCommanderId: int)

  /** A row of the quest_adventurer_junction table: one adventurer in one quest's crew. */
  datatype Junction = Junction(adventurerId: int, questId: int)

  /** The most adventurers a quest admits. */
  const MAX_ADVENTURERS_PER_QUEST: nat := 4

  /** What clients see of a quest: its fields together with its crew size. */
  datatype QuestModel = QuestModel(
    id: int,
    name: string,
    description: Option<string>,
    status: QuestStatus,
    guildCommanderId: int,
    adventurersCount: int)

  /** Builds the read model of `quest` for a crew of `adventurersCount`. */
  function ToModel(quest: Quest, adventurersCount: int): QuestModel
  {
    QuestModel(quest.id, quest.name, quest.description, quest.status,
               quest.guildCommanderId, adventurersCount)
  }

  /** Failures of a store call. */
  datatype StoreError =
    | ConnectionUnavailable  // no connection could be taken from the pool
    | QuestNotFound          // the quest lookup found no row

  datatype Error =
    | QuestIsFull
    | QuestNotJoinable
    | QuestNotLeavable
    | Store(cause: StoreError)

  /**
   * The text a client receives for each of the use cases' own errors (the
   * text of a store error comes from the database library and is not modelled).
   */
  function Message(e: Error): (text: string)
    requires !e.Store?
    // each text names exactly one error, so a client can tell them apart
    ensures text == "Quest is full" <==> e == QuestIsFull
    ensures text == "Quest is not joinable" <==> e == QuestNotJoinable
    ensures text == "Quest is not leavable" <==> e == QuestNotLeavable
  {
    match e
    case QuestIsFull => "Quest is full"
    case QuestNotJoinable => "Quest is not joinable"
    case QuestNotLeavable => "Quest is not leavable"
  }

  datatype Result<+T> = Ok(value: T) | Err(error: Error)

  /** Whether adventurers may join or leave a quest in status `s`. */
  predicate RosterMutable(s: QuestStatus): (mutable: bool)
    // a quest on its journey, completed, or in an unrecognised status keeps its crew
    ensures (s == InJourney || s == Completed || s.Unrecognised?) ==> !mutable
    ensures mutable ==> s == Open || s == Failed
    // an Open quest, and a Failed one reopened for recruitment, let the crew change
    ensures s == Open ==> mutable
    ensures s == Failed ==> mutable
  {
    s == Open || s == Failed
  }
}
