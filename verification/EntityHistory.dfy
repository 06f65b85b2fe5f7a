/** The history column of an entity: every change of node or status is appended, and
    only the last bytes are kept. */
module EntityHistory {
  import opened Text

  datatype Entity = Entity(node: string, status: nat, history: string)

  datatype Change = Change(node: string, status: nat)

  /** The last `size` bytes. */
  function Last(s: string, size: nat): string { if |s| > size then s[|s| - size..] else s }

  /** What an update appends: the state it leaves, if the entity has been anywhere. */
  function Extended(e: Entity): string {
    if e.history != "" || e.node != "" then e.history + ("->" + InBraces(e.node, e.status)) else ""
  }

  function InBraces(node: string, status: nat): string { "{" + node + ":" + Itoa(status) + "}" }

  /** `UpdateEntityStatus`. */
  function Updated(e: Entity, c: Change, size: nat): Entity { Entity(c.node, c.status, Last(Extended(e), size)) }

  function AfterChanges(e: Entity, changes: seq<Change>, size: nat): Entity
    decreases |changes|
  {
    if changes == [] then e else AfterChanges(Updated(e, changes[0], size), changes[1..], size)
  }

  /** The transitions of all changes, never cut. */
  function Transitions(e: Entity, changes: seq<Change>): string
    decreases |changes|
  {
    if changes == [] then e.history
    else Transitions(Entity(changes[0].node, changes[0].status, Extended(e)), changes[1..])
  }

  /** One transition: an arrow, and the node and status that are left, in braces. */
  function Arrow(node: string, status: nat): string { "->{" + node + ":" + Itoa(status) + "}" }

  /** All transitions, one after the other: the state at the start, then each change but the last. */
  function Arrows(node: string, status: nat, changes: seq<Change>): string
    decreases |changes|
  {
    if changes == [] then ""
    else Arrow(node, status) + Arrows(changes[0].node, changes[0].status, changes[1..])
  }

  lemma ArrowText(node: string, status: nat)
    ensures "->" + InBraces(node, status) == Arrow(node, status)
  {
  }

  /** The whole string of an entity that has been somewhere is its history and the arrows. */
  lemma {:induction false} TransitionsAre(e: Entity, changes: seq<Change>)
    requires e.history != "" || e.node != ""
    ensures Transitions(e, changes) == e.history + Arrows(e.node, e.status, changes)
    decreases |changes|
  {
    if changes == [] {
      assert e.history + "" == e.history;
    } else {
      var arrow := Arrow(e.node, e.status);
      ArrowText(e.node, e.status);
      var next := Entity(changes[0].node, changes[0].status, e.history + arrow);
      var rest := Arrows(next.node, next.status, changes[1..]);
      assert Extended(e) == e.history + arrow && e.history + arrow != "";
      assert Arrows(e.node, e.status, changes) == arrow + rest;
      assert Transitions(e, changes) == Transitions(next, changes[1..]);
      TransitionsAre(next, changes[1..]);
      hide *;
      assert e.history + arrow + rest == e.history + (arrow + rest);
    }
  }

  /** The first change of an entity that has been nowhere leaves no transition. */
  lemma FirstChangeIsBlank(status: nat, c: Change, size: nat)
    ensures Updated(Entity("", status, ""), c, size) == Entity(c.node, c.status, "")
  {
  }

  lemma Digits()
    ensures Itoa(1) == "1" && Itoa(0) == "0"
  {
  }

  lemma BracesExample()
    ensures "->" + InBraces("n1", 1) == "->{n1:1}" && "->" + InBraces("n2", 0) == "->{n2:0}"
  {
    Digits();
    hide Itoa;
  }

  /** For instance, a first transition, and a second that is cut. */
  lemma ArrowExample()
    ensures Updated(Entity("n1", 1, ""), Change("n2", 0), 20) == Entity("n2", 0, "->{n1:1}")
    ensures Updated(Entity("n2", 0, "->{n1:1}"), Change("n1", 1), 10).history == "1}->{n2:0}"
  {
    BracesExample();
    hide InBraces;
    assert "" + "->{n1:1}" == "->{n1:1}";
    assert "->{n1:1}" + "->{n2:0}" == "->{n1:1}->{n2:0}";
    assert "->{n1:1}->{n2:0}"[6..] == "1}->{n2:0}";
  }

  lemma LastOfAppend(a: string, b: string, size: nat)
    ensures Last(Last(a, size) + b, size) == Last(a + b, size)
  {
  }

  /** Cutting the history before an update makes no difference after it. */
  lemma CutBefore(e: Entity, size: nat)
    ensures Last(Extended(e.(history := Last(e.history, size))), size) == Last(Extended(e), size)
  {
    hide InBraces;
    LastOfAppend(e.history, "->" + InBraces(e.node, e.status), size);
  }

  lemma {:induction false} CutEach(e: Entity, changes: seq<Change>, size: nat)
    ensures AfterChanges(e.(history := Last(e.history, size)), changes, size).history ==
      Last(Transitions(e, changes), size)
    decreases |changes|
  {
    if changes != [] {
      var full := Entity(changes[0].node, changes[0].status, Extended(e));
      CutBefore(e, size);
      hide Extended, Last;
      CutEach(full, changes[1..], size);
    }
  }

  /** Cutting after every update keeps exactly the last bytes of the whole string of transitions:
      a suffix of it, as long as the limit allows. */
  lemma HistoryIsLastBytes(e: Entity, changes: seq<Change>, size: nat)
    requires changes != [] || |e.history| <= size
    ensures var history, full := AfterChanges(e, changes, size).history, Transitions(e, changes);
      && |history| == (if |full| < size then |full| else size)
      && history == full[|full| - |history|..]
  {
    CutEach(e, changes, size);
    CutBefore(e, size);
    var cut := e.(history := Last(e.history, size));
    if changes != [] {
      assert Updated(e, changes[0], size) == Updated(cut, changes[0], size);
      assert AfterChanges(e, changes, size) == AfterChanges(cut, changes, size);
    }
    hide AfterChanges, Transitions, Extended, Updated;
  }

  /** The entity table, updated in place. */
  class EntityTable {
    var rows: map<string, Entity>
    const size: nat

    constructor (rows: map<string, Entity>, size: nat)
      ensures this.rows == rows && this.size == size
    {
      this.rows, this.size := rows, size;
    }

    /** A missing row reads as an empty one. */
    function GetEntityInfo(id: string): Entity reads this { if id in rows then rows[id] else Entity("", 0, "") }

    method UpdateEntityStatus(id: string, node: string, status: nat)
      modifies this
      ensures rows == old(rows)[id := Updated(old(GetEntityInfo(id)), Change(node, status), size)]
    {
      var entity := GetEntityInfo(id);
      var history := "";
      if entity.history != "" || entity.node != "" {
        var added := "{" + entity.node + ":" + Itoa(entity.status) + "}";
        history := entity.history + "->" + added;
        assert history == entity.history + ("->" + added);
      }
      if |history| > size {
        history := history[|history| - size..];
      }
      rows := rows[id := Entity(node, status, history)];
    }
  }
}
