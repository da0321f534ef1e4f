/** The conversation store of Chefbot: an append-only table of role-tagged
    messages whose ids come from an AUTOINCREMENT counter. chefbot.py keeps
    the table in SQLite; here it is a sequence of rows held by a class, and
    every operation that opens, commits and closes a connection in the
    source is one method call. */
module Memory {

  /** Who wrote a message. The source stores a free-form string; only
      "system", "user" and "assistant" ever occur. */
  datatype Role = System | User | Assistant

  /** A role/content pair: what a read of the table returns, and what a
      prompt to the completion provider is made of. */
  datatype Message = Message(role: Role, content: string)

  /** One row of the conversations table (its timestamp is left out). */
  datatype Record = Record(id: nat, role: Role, content: string) {
    /** The columns `SELECT role, content` reads back. */
    function ToMessage(): Message {
      Message(role, content)
    }
  }

  function Min(a: nat, b: nat): nat {
    if a < b then a else b
  }

  /** Each row was inserted after the one before it, so it has a larger id. */
  ghost predicate IdsIncreasing(rows: seq<Record>) {
    forall i :: 0 <= i < |rows| - 1 ==> rows[i].id < rows[i + 1].id
  }

  /** No stored row carries the system role. */
  ghost predicate NoSystemRecords(rows: seq<Record>) {
    forall i :: 0 <= i < |rows| ==> rows[i].role != System
  }

  /** Ids increasing from row to row are increasing over the whole table:
      position order and id order agree. */
  lemma {:induction false} IdsOrdered(rows: seq<Record>)
    requires IdsIncreasing(rows)
    ensures forall i, j :: 0 <= i < j < |rows| ==> rows[i].id < rows[j].id
  {
    if |rows| > 1 {
      var init := rows[..|rows| - 1];
      assert IdsIncreasing(init) by {
        forall i | 0 <= i < |init| - 1 ensures init[i].id < init[i + 1].id {
          assert init[i] == rows[i] && init[i + 1] == rows[i + 1];
        }
      }
      IdsOrdered(init);
      forall i, j | 0 <= i < j < |rows| ensures rows[i].id < rows[j].id {
        if j < |rows| - 1 {
          assert rows[i] == init[i] && rows[j] == init[j];
        } else if i < j - 1 {
          assert rows[i] == init[i] && rows[j - 1] == init[j - 1];
        }
      }
    }
  }

  /** The rows as read back by `SELECT role, content ... ORDER BY id ASC`:
      one message per row, in table order. */
  function Project(rows: seq<Record>): seq<Message> {
    seq(|rows|, i requires 0 <= i < |rows| => rows[i].ToMessage())
  }

  /** Reading two runs of rows one after the other reads their concatenation. */
  lemma {:induction false} ProjectAppend(a: seq<Record>, b: seq<Record>)
    ensures Project(a + b) == Project(a) + Project(b)
  {
    var l, r := Project(a + b), Project(a) + Project(b);
    assert |l| == |r|;
    forall i | 0 <= i < |l| ensures l[i] == r[i] {
      if i < |a| {
        assert (a + b)[i] == a[i];
      } else {
        assert (a + b)[i] == b[i - |a|];
      }
    }
  }

  /** What `get_recent_messages(limit)` returns: the last `min(limit, n)`
      rows of the table, oldest first. */
  function RecentWindow(rows: seq<Record>, limit: nat): (ms: seq<Message>)
    ensures |ms| == Min(limit, |rows|)
    ensures forall i :: 0 <= i < |ms| ==> ms[i] == rows[|rows| - |ms| + i].ToMessage()
    ensures limit >= |rows| ==> ms == Project(rows)
  {
    Project(rows[|rows| - Min(limit, |rows|)..])
  }

  /** The rows the window selects are exactly those with the largest ids,
      and the window lists them in ascending id order. */
  lemma RecentSelectsNewest(rows: seq<Record>, limit: nat)
    requires IdsIncreasing(rows)
    ensures var lo := |rows| - |RecentWindow(rows, limit)|;
            && (forall i, j :: lo <= i < |rows| && 0 <= j < lo ==> rows[j].id < rows[i].id)
            && (forall i, j :: lo <= i < j < |rows| ==> rows[i].id < rows[j].id)
  {
    IdsOrdered(rows);
  }

  /** After one more append, a window of `limit` ends with the new row and
      is preceded by the window of `limit - 1` over the older rows. */
  lemma RecentAfterAppend(rows: seq<Record>, r: Record, limit: nat)
    requires limit >= 1
    ensures RecentWindow(rows + [r], limit) == RecentWindow(rows, limit - 1) + [r.ToMessage()]
  {
    var all := rows + [r];
    var l, w := RecentWindow(all, limit), RecentWindow(rows, limit - 1);
    assert |l| == |w| + 1;
    forall i | 0 <= i < |w| ensures l[i] == w[i] {
      var k := |all| - |l| + i;
      assert k == |rows| - |w| + i < |rows|;
      assert all[k] == rows[k];
    }
    assert l[|w|] == all[|rows|].ToMessage();
    assert l == w + [r.ToMessage()];
  }

  /** Python's `list.reverse()`: the array now holds its old elements back
      to front. */
  method ReverseInPlace(a: array<Message>)
    modifies a
    ensures forall i :: 0 <= i < a.Length ==> a[i] == old(a[a.Length - 1 - i])
  {
    var n, lo := a.Length, 0;
    while lo < n / 2
      invariant 0 <= lo <= n / 2
      invariant forall i :: 0 <= i < lo ==> a[i] == old(a[n - 1 - i]) && a[n - 1 - i] == old(a[i])
      invariant forall i :: lo <= i < n - lo ==> a[i] == old(a[i])
    {
      a[lo], a[n - 1 - lo] := a[n - 1 - lo], a[lo];
      lo := lo + 1;
    }
  }

  /** The conversations table. `rows` is its content in id order; `nextId`
      is the AUTOINCREMENT sequence value the next insert receives;
      `issued` holds every id ever handed out, including those of rows that
      a clear has since removed. */
  class ConversationMemory {
    var rows: seq<Record>
    var nextId: nat
    ghost var issued: set<nat>

    ghost predicate Valid()
      reads this
    {
      && 1 <= nextId
      && IdsIncreasing(rows)
      && (forall x :: x in issued ==> x < nextId)
      && (forall i :: 0 <= i < |rows| ==> rows[i].id in issued)
    }

    /** A freshly created, empty table: AUTOINCREMENT starts at 1. */
    constructor ()
      ensures Valid()
      ensures rows == [] && nextId == 1 && issued == {}
    {
      rows := [];
      nextId := 1;
      issued := {};
    }

    /** INSERT of one row: it goes at the end with a fresh id, larger than
        every id issued before, and no earlier row changes. */
    method AddMessage(role: Role, content: string)
      requires Valid()
      modifies this
      ensures Valid()
      ensures rows == old(rows) + [Record(old(nextId), role, content)]
      ensures nextId == old(nextId) + 1
      ensures issued == old(issued) + {old(nextId)}
      ensures forall x :: x in old(issued) ==> x < old(nextId)
    {
      rows := rows + [Record(nextId, role, content)];
      issued := issued + {nextId};
      nextId := nextId + 1;
    }

    /** `SELECT role, content ... ORDER BY id DESC LIMIT limit`, then the list
        reversed in place into chronological order. */
    method GetRecentMessages(limit: nat) returns (msgs: seq<Message>)
      ensures msgs == RecentWindow(rows, limit)
    {
      var n := |rows|;
      var k := Min(limit, n);
      var fetched := new Message[k];
      var j := 0;
      while j < k
        invariant 0 <= j <= k
        invariant forall i :: 0 <= i < j ==> fetched[i] == rows[n - 1 - i].ToMessage()
      {
        fetched[j] := rows[n - 1 - j].ToMessage();
        j := j + 1;
      }
      ReverseInPlace(fetched);
      msgs := fetched[..];
    }

    /** `SELECT role, content ... ORDER BY id ASC`: every stored row, in
        insertion order. */
    method GetAllMessages() returns (msgs: seq<Message>)
      ensures msgs == Project(rows)
    {
      msgs := [];
      var i := 0;
      while i < |rows|
        invariant 0 <= i <= |rows|
        invariant |msgs| == i
        invariant forall j :: 0 <= j < i ==> msgs[j] == rows[j].ToMessage()
      {
        msgs := msgs + [rows[i].ToMessage()];
        i := i + 1;
      }
    }

    /** `DELETE FROM conversations`: every row goes, the AUTOINCREMENT
        counter stays, so later inserts never reuse an id. */
    method ClearHistory()
      requires Valid()
      modifies this
      ensures Valid()
      ensures rows == [] && nextId == old(nextId) && issued == old(issued)
    {
      rows := [];
    }
  }

  /** The memory test: three messages, the last two read back in order,
      then two clears that both leave the table empty. */
  method MemoryScenario() returns (recent: seq<Message>, all: seq<Message>, cleared: seq<Message>, clearedAgain: seq<Message>)
    ensures |recent| == 2 && recent[0].role == Assistant && recent[1].role == User
    ensures |all| == 3
    ensures cleared == [] && clearedAgain == []
  {
    var memory := new ConversationMemory();
    memory.AddMessage(User, "What is a good recipe for pasta carbonara?");
    memory.AddMessage(Assistant, "I'd be happy to share a classic carbonara recipe...");
    memory.AddMessage(User, "Can you remind me of the carbonara recipe?");
    recent := memory.GetRecentMessages(2);
    all := memory.GetAllMessages();
    memory.ClearHistory();
    cleared := memory.GetAllMessages();
    memory.ClearHistory();
    clearedAgain := memory.GetAllMessages();
  }
}
