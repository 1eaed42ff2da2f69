/** The human-review queue of the action layer: tasks flagged for review wait as pending items
    until an operator approves or rejects them at the console. */
module Review {
  import opened Wrappers
  import opened Text

  datatype Status = Pending | Approved | Rejected

  /** One queue entry: the task, why it was flagged, and where its review stands. */
  datatype Item<T> = Item(id: int, task: T, reason: string, status: Status)

  /** Ids are at least 1, below the next id to hand out, and strictly increasing along the queue. */
  predicate Ordered<T>(queue: seq<Item<T>>, next: int) {
    && next >= 1
    && (forall i :: 0 <= i < |queue| ==> 1 <= queue[i].id < next)
    && (forall i, j :: 0 <= i < j < |queue| ==> queue[i].id < queue[j].id)
  }

  /** In an ordered queue no two items share an id. */
  lemma OrderedIdsUnique<T>(queue: seq<Item<T>>, next: int, i: int, j: int)
    requires Ordered(queue, next)
    requires 0 <= i < |queue| && 0 <= j < |queue| && i != j
    ensures queue[i].id != queue[j].id
  {
    if i < j {
      assert queue[i].id < queue[j].id;
    } else {
      assert queue[j].id < queue[i].id;
    }
  }

  /** Flagging appends an item with the next id, which keeps the queue ordered. */
  lemma FlagKeepsOrdered<T>(queue: seq<Item<T>>, next: int, task: T, reason: string)
    requires Ordered(queue, next)
    ensures Ordered(queue + [Item(next, task, reason, Pending)], next + 1)
  {
    var q := queue + [Item(next, task, reason, Pending)];
    forall i, j | 0 <= i < j < |q|
      ensures q[i].id < q[j].id
    {
      if j == |queue| {
        assert q[i] == queue[i];
      } else {
        assert q[i] == queue[i] && q[j] == queue[j];
      }
    }
  }

  /** The position of the first item with the given id (the generator `next(...)` over the queue). */
  function FirstIndex<T>(queue: seq<Item<T>>, id: int): (r: Option<nat>)
    ensures r.None? <==> forall i :: 0 <= i < |queue| ==> queue[i].id != id
    ensures r.Some? ==> r.value < |queue| && queue[r.value].id == id
    ensures r.Some? ==> forall i :: 0 <= i < r.value ==> queue[i].id != id
    decreases |queue|
  {
    if queue == [] then None
    else if queue[0].id == id then Some(0)
    else
      match FirstIndex(queue[1..], id)
      case None => None
      case Some(k) => Some(k + 1)
  }

  /** The first item with the id is the one a linear search stopping at it finds. */
  lemma FirstIndexAt<T>(queue: seq<Item<T>>, id: int, k: nat)
    requires k < |queue| && queue[k].id == id
    requires forall i :: 0 <= i < k ==> queue[i].id != id
    ensures FirstIndex(queue, id) == Some(k)
  {
  }

  /** After a flag the new id is found, and found at the end of the queue. */
  lemma FlaggedIsFound<T>(queue: seq<Item<T>>, next: int, task: T, reason: string)
    requires Ordered(queue, next)
    ensures FirstIndex(queue + [Item(next, task, reason, Pending)], next) == Some(|queue|)
  {
    var q := queue + [Item(next, task, reason, Pending)];
    forall i | 0 <= i < |queue|
      ensures q[i].id != next
    {
      assert q[i] == queue[i];
    }
    FirstIndexAt(q, next, |queue|);
  }

  /** What one typed answer decides, after lower-casing: approve, reject, or ask again. */
  function Decide(answer: string): (r: Option<bool>)
    ensures r == Some(true) <==> Lower(answer) in ["yes", "y"]
    ensures r == Some(false) <==> Lower(answer) in ["no", "n"]
  {
    var a := Lower(answer);
    if a == "yes" || a == "y" then Some(true)
    else if a == "no" || a == "n" then Some(false)
    else None
  }

  /** Answers are read without regard to letter case. */
  lemma DecideIgnoresCase(answer: string)
    ensures Decide(Lower(answer)) == Decide(answer)
  {
    LowerIdempotent(answer);
  }

  /** The first deciding answer in the sequence typed at the prompt, or None when the input
      runs out before one. */
  function Outcome(answers: seq<string>): (r: Option<bool>)
    ensures r.None? <==> forall i :: 0 <= i < |answers| ==> Decide(answers[i]).None?
    ensures r.Some? ==> exists i :: 0 <= i < |answers| && Decide(answers[i]) == r && Undecided(answers, i)
    decreases |answers|
  {
    if answers == [] then None
    else
      match Decide(answers[0])
      case Some(b) => (assert Undecided(answers, 0); Some(b))
      case None =>
        var r := Outcome(answers[1..]);
        if r.Some? then
          var i :| 0 <= i < |answers[1..]| && Decide(answers[1..][i]) == r && Undecided(answers[1..], i);
          assert Decide(answers[i + 1]) == r && Undecided(answers, i + 1);
          r
        else r
  }

  /** None of the answers before position `i` decides. */
  predicate Undecided(answers: seq<string>, i: int)
    requires 0 <= i <= |answers|
  {
    forall j :: 0 <= j < i ==> Decide(answers[j]).None?
  }

  /** Answers after the deciding one are never read. */
  lemma {:induction false} OutcomeIgnoresLater(answers: seq<string>, i: nat, later: seq<string>)
    requires i < |answers| && Decide(answers[i]).Some? && Undecided(answers, i)
    ensures Outcome(answers + later) == Decide(answers[i])
    decreases i
  {
    if i > 0 {
      assert (answers + later)[1..] == answers[1..] + later;
      OutcomeIgnoresLater(answers[1..], i - 1, later);
    } else {
      assert (answers + later)[0] == answers[0];
    }
  }

  /** What `get_user_approval` returns and the queue it leaves; Err stands for the EOFError of a
      prompt whose input has run out. */
  function Approve<T>(queue: seq<Item<T>>, id: int, answers: seq<string>): (Result<bool, string>, seq<Item<T>>) {
    match FirstIndex(queue, id)
    case None => (Ok(false), queue)
    case Some(k) =>
      match Outcome(answers)
      case None => (Err("EOFError"), queue)
      case Some(b) => (Ok(b), queue[k := queue[k].(status := if b then Approved else Rejected)])
  }

  /** An unknown id gives False and changes nothing, whatever is typed. */
  lemma ApproveUnknown<T>(queue: seq<Item<T>>, id: int, answers: seq<string>)
    requires forall i :: 0 <= i < |queue| ==> queue[i].id != id
    ensures Approve(queue, id, answers) == (Ok(false), queue)
  {
  }

  /** With the id present, the first deciding answer sets that item's status to approved or
      rejected and is returned; every other item, and the item's id, task and reason, stay. */
  lemma ApproveSetsStatus<T>(queue: seq<Item<T>>, id: int, answers: seq<string>, k: nat)
    requires FirstIndex(queue, id) == Some(k) && Outcome(answers).Some?
    ensures var (r, q) := Approve(queue, id, answers);
      && r == Ok(Outcome(answers).value)
      && |q| == |queue|
      && q[k].status == (if r.value then Approved else Rejected)
      && q[k].id == id && q[k].task == queue[k].task && q[k].reason == queue[k].reason
      && (forall j :: 0 <= j < |queue| && j != k ==> q[j] == queue[j])
  {
  }

  /** When the input runs out before a deciding answer, the queue is unchanged. */
  lemma ApproveEndOfInput<T>(queue: seq<Item<T>>, id: int, answers: seq<string>)
    requires forall i :: 0 <= i < |answers| ==> Decide(answers[i]).None?
    ensures Approve(queue, id, answers).1 == queue
  {
  }

  /** A review changes no id, so the queue stays ordered. */
  lemma ApproveKeepsOrdered<T>(queue: seq<Item<T>>, next: int, id: int, answers: seq<string>)
    requires Ordered(queue, next)
    ensures Ordered(Approve(queue, id, answers).1, next)
  {
    var q := Approve(queue, id, answers).1;
    assert |q| == |queue| && forall i :: 0 <= i < |q| ==> q[i].id == queue[i].id;
  }

  /** The prompt loop: reads answers until one decides, None when the input runs out. */
  method ReadDecision(answers: seq<string>) returns (decision: Option<bool>)
    ensures decision == Outcome(answers)
  {
    var i := 0;
    while i < |answers|
      invariant 0 <= i <= |answers|
      invariant Outcome(answers[i..]) == Outcome(answers)
    {
      OutcomeHead(answers[i..]);
      assert answers[i..][0] == answers[i] && answers[i..][1..] == answers[i + 1..];
      decision := Decide(answers[i]);
      if decision.Some? {
        return;
      }
      i := i + 1;
    }
    return None;
  }

  /** Outcome reads the first answer, and goes on only when it does not decide. */
  lemma OutcomeHead(answers: seq<string>)
    requires answers != []
    ensures Outcome(answers) == if Decide(answers[0]).Some? then Decide(answers[0]) else Outcome(answers[1..])
  {
  }

  /** The review queue and its id counter. */
  class HumanInTheLoop<T> {
    var queue: seq<Item<T>>
    var nextId: int

    predicate Valid()
      reads this
    {
      Ordered(queue, nextId)
    }

    constructor ()
      ensures Valid() && queue == [] && nextId == 1
    {
      queue := [];
      nextId := 1;
    }

    /** Appends a pending item under the next id and returns that id. */
    method FlagForReview(task: T, reason: string) returns (id: int)
      requires Valid()
      modifies this
      ensures Valid()
      ensures id == old(nextId) && nextId == id + 1
      ensures queue == old(queue) + [Item(id, task, reason, Pending)]
    {
      FlagKeepsOrdered(queue, nextId, task, reason);
      id := nextId;
      queue := queue + [Item(id, task, reason, Pending)];
      nextId := nextId + 1;
    }

    /** Looks up the first item with the id, then prompts until an answer decides; `answers`
        are the lines typed at the prompt, in order. */
    method GetUserApproval(taskId: int, answers: seq<string>) returns (approved: Result<bool, string>)
      requires Valid()
      modifies this
      ensures Valid() && nextId == old(nextId)
      ensures (approved, queue) == Approve(old(queue), taskId, answers)
    {
      ApproveKeepsOrdered(queue, nextId, taskId, answers);
      var k := 0;
      while k < |queue| && queue[k].id != taskId
        invariant 0 <= k <= |queue|
        invariant forall j :: 0 <= j < k ==> queue[j].id != taskId
      {
        k := k + 1;
      }
      if k == |queue| {
        return Ok(false);
      }
      FirstIndexAt(queue, taskId, k);
      var decision := ReadDecision(answers);
      match decision
      case None =>
        return Err("EOFError");
      case Some(b) =>
        queue := queue[k := queue[k].(status := if b then Approved else Rejected)];
        return Ok(b);
    }
  }
}
