/**
 * The Postgres side of the crew switchboard: the quest_adventurer_junction
 * table with its insert and delete, and the two reads of the quest viewing
 * repository that the use cases depend on (loading a quest and counting its
 * crew).
 */
module Repositories {
  import opened Domain

  /** Number of junction rows that belong to quest `questId`. */
  function CountFor(rows: seq<Junction>, questId: int): (n: nat)
    ensures n <= |rows|
  {
    if rows == [] then 0
    else (if rows[0].questId == questId then 1 else 0) + CountFor(rows[1..], questId)
  }

  /**
   * The rows left after deleting every row whose adventurer id and quest id
   * both match `junction`: all of its copies go, every other row stays.
   */
  function Without(rows: seq<Junction>, junction: Junction): (r: seq<Junction>)
    ensures multiset(r) == multiset(rows)[junction := 0]
  {
    if rows == [] then []
    else
      assert rows == [rows[0]] + rows[1..];
      if rows[0] == junction then Without(rows[1..], junction)
      else [rows[0]] + Without(rows[1..], junction)
  }

  /** A quest never has more than MAX_ADVENTURERS_PER_QUEST rows. */
  ghost predicate WithinCapacity(rows: seq<Junction>)
  {
    forall q :: CountFor(rows, q) <= MAX_ADVENTURERS_PER_QUEST
  }

  /** Inserting a row raises the count of its own quest by one and no other. */
  lemma {:induction false} CountForAppend(rows: seq<Junction>, junction: Junction, questId: int)
    ensures CountFor(rows + [junction], questId)
         == CountFor(rows, questId) + (if junction.questId == questId then 1 else 0)
  {
    if rows != [] {
      assert (rows + [junction])[1..] == rows[1..] + [junction];
      CountForAppend(rows[1..], junction, questId);
    }
  }

  /** The count of a concatenation is the sum of the counts. */
  lemma {:induction false} CountForConcat(a: seq<Junction>, b: seq<Junction>, questId: int)
    ensures CountFor(a + b, questId) == CountFor(a, questId) + CountFor(b, questId)
  {
    if a == [] {
      assert a + b == b;
    } else {
      assert (a + b)[1..] == a[1..] + b;
      CountForConcat(a[1..], b, questId);
    }
  }

  /** Taking out the row at `k` lowers the count of that row's quest by one. */
  lemma CountForRemoveAt(rows: seq<Junction>, k: nat, questId: int)
    requires k < |rows|
    ensures CountFor(rows, questId)
         == CountFor(rows[..k] + rows[k + 1..], questId) + (if rows[k].questId == questId then 1 else 0)
    ensures multiset(rows[..k] + rows[k + 1..]) == multiset(rows) - multiset{rows[k]}
  {
    assert rows == (rows[..k] + [rows[k]]) + rows[k + 1..];
    CountForConcat(rows[..k] + [rows[k]], rows[k + 1..], questId);
    CountForAppend(rows[..k], rows[k], questId);
    CountForConcat(rows[..k], rows[k + 1..], questId);
  }

  /**
   * The table is unordered: two arrangements of the same rows give every
   * quest the same count.
   */
  lemma {:induction false} CountForMultiset(a: seq<Junction>, b: seq<Junction>, questId: int)
    requires multiset(a) == multiset(b)
    ensures CountFor(a, questId) == CountFor(b, questId)
    decreases |a|
  {
    if a != [] {
      assert a == [a[0]] + a[1..];
      assert a[0] in multiset(b);
      var k :| 0 <= k < |b| && b[k] == a[0];
      CountForRemoveAt(b, k, questId);
      assert multiset(a[1..]) == multiset(a) - multiset{a[0]};
      CountForMultiset(a[1..], b[..k] + b[k + 1..], questId);
    }
  }

  /** Deleting a pair lowers its quest's count by the pair's copies and no other. */
  lemma {:induction false} CountForWithout(rows: seq<Junction>, junction: Junction, questId: int)
    ensures multiset(rows)[junction] <= CountFor(rows, junction.questId)
    ensures CountFor(Without(rows, junction), questId)
         == CountFor(rows, questId) - (if junction.questId == questId then multiset(rows)[junction] else 0)
  {
    if rows != [] {
      assert rows == [rows[0]] + rows[1..];
      CountForWithout(rows[1..], junction, questId);
      CountForWithout(rows[1..], junction, junction.questId);
    }
  }

  /** Deleting a pair that has no row changes nothing. */
  lemma {:induction false} WithoutAbsent(rows: seq<Junction>, junction: Junction)
    requires junction !in rows
    ensures Without(rows, junction) == rows
  {
    if rows != [] {
      assert rows == [rows[0]] + rows[1..];
      WithoutAbsent(rows[1..], junction);
    }
  }

  /** Deleting a pair removes the row just inserted for it as well. */
  lemma {:induction false} WithoutAppend(rows: seq<Junction>, junction: Junction)
    ensures Without(rows + [junction], junction) == Without(rows, junction)
  {
    if rows == [] {
      assert [junction][1..] == [];
    } else {
      assert (rows + [junction])[1..] == rows[1..] + [junction];
      WithoutAppend(rows[1..], junction);
    }
  }

  /** The quest viewing repository's quest lookup. */
  function QuestLookup(quests: map<int, Quest>, questId: int, connected: bool): Result<Quest>
  {
    if !connected then Err(Store(ConnectionUnavailable))
    else if questId in quests then Ok(quests[questId])
    else Err(Store(QuestNotFound))
  }

  /** The quest viewing repository's crew count for one quest. */
  function CountLookup(rows: seq<Junction>, questId: int, connected: bool): Result<int>
  {
    if !connected then Err(Store(ConnectionUnavailable))
    else Ok(CountFor(rows, questId))
  }

  /**
   * The crew switchboard repository and the junction table it writes. It
   * inserts and deletes without checking capacity, status, duplicates or
   * existence; those guards belong to the use case.
   */
  class CrewSwitchboardPostgres {
    var rows: seq<Junction>

    constructor (rows: seq<Junction>)
      ensures this.rows == rows
    {
      this.rows := rows;
    }

    /** Inserts one row for `junction`, once a connection is obtained. */
    method Join(junction: Junction, connected: bool) returns (r: Result<()>)
      modifies this
      ensures r == if connected then Ok(()) else Err(Store(ConnectionUnavailable))
      ensures rows == if connected then old(rows) + [junction] else old(rows)
      ensures multiset(rows) == if connected then old(multiset(rows)) + multiset{junction} else old(multiset(rows))
    {
      if !connected {
        return Err(Store(ConnectionUnavailable));
      }
      rows := rows + [junction];
      r := Ok(());
    }

    /**
     * Deletes every row matching both ids of `junction`, once a connection is
     * obtained; succeeds whether or not such a row existed.
     */
    method Leave(junction: Junction, connected: bool) returns (r: Result<()>)
      modifies this
      ensures r == if connected then Ok(()) else Err(Store(ConnectionUnavailable))
      ensures rows == if connected then Without(old(rows), junction) else old(rows)
      ensures multiset(rows) == if connected then old(multiset(rows))[junction := 0] else old(multiset(rows))
    {
      if !connected {
        return Err(Store(ConnectionUnavailable));
      }
      rows := Without(rows, junction);
      r := Ok(());
    }
  }

  /**
   * The quest viewing repository: it reads the quests table and counts rows
   * of the junction table that the crew switchboard repository writes.
   */
  class QuestViewingPostgres {
    var quests: map<int, Quest>
    const junctionTable: CrewSwitchboardPostgres

    constructor (quests: map<int, Quest>, junctionTable: CrewSwitchboardPostgres)
      ensures this.quests == quests && this.junctionTable == junctionTable
    {
      this.quests := quests;
      this.junctionTable := junctionTable;
    }

    function ViewDetails(questId: int, connected: bool): Result<Quest>
      reads this
    {
      QuestLookup(quests, questId, connected)
    }

    function AdventurersCountingByQuestId(questId: int, connected: bool): Result<int>
      reads junctionTable
    {
      CountLookup(junctionTable.rows, questId, connected)
    }
  }
}
