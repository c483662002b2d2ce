/*
 * The rule list (llist/lnode and rules_create, rules_first, rules_last,
 * rules_next, rules_append, rules_unsupport_audit, rules_clear in
 * src/library/rules.c). The chain of nodes from `head` along `next` is the
 * sequence `rules`; the cursor `cur` is an index into it or None for NULL.
 */
module Store {
  import opened CString
  import opened Policy
  import opened Parser

  class RuleList {
    var rules: seq<Rule>
    var cur: Option<nat>
    var cnt: nat

    /**
     * The count is the length of the chain, the cursor is NULL or on a
     * node, every node's number is its position, and every node holds at
     * least one and at most MAX_FIELDS subjects and objects.
     */
    predicate Valid()
      reads this
    {
      cnt == |rules| &&
      (cur.Some? ==> cur.value < |rules|) &&
      forall k :: 0 <= k < |rules| ==>
        rules[k].num == k &&
        1 <= |rules[k].subjects| <= MAX_FIELDS && 1 <= |rules[k].objects| <= MAX_FIELDS
    }

    /** rules_create: an empty list. */
    constructor ()
      ensures Valid() && rules == [] && cur == None && cnt == 0
    {
      rules := [];
      cur := None;
      cnt := 0;
    }

    /** rules_first: the cursor goes to the head. */
    method First()
      requires Valid()
      modifies this`cur
      ensures Valid()
      ensures cur == if rules == [] then None else Some(0)
    {
      cur := if |rules| == 0 then None else Some(0);
    }

    /** rules_last: walk from the head to the node without a successor. */
    method Last()
      requires Valid()
      modifies this`cur
      ensures Valid()
      ensures cur == if rules == [] then old(cur) else Some(|rules| - 1)
    {
      if |rules| == 0 {
        return;
      }
      // window is the index of the node `window` points at; its next
      // link is non-NULL exactly while a node follows it
      var window := 0;
      while window + 1 < |rules|
        invariant window < |rules|
      {
        window := window + 1;
      }
      cur := Some(window);
    }

    /**
     * rules_next: move the cursor one node on and return the node it now
     * points at; at the tail the cursor becomes NULL, and a NULL cursor
     * stays NULL.
     */
    method Next() returns (n: Option<Rule>)
      requires Valid()
      modifies this`cur
      ensures Valid()
      ensures old(cur) == None ==> cur == None
      ensures old(cur).Some? ==>
        cur == if old(cur).value + 1 < |rules| then Some(old(cur).value + 1) else None
      ensures n == if cur == None then None else Some(rules[cur.value])
    {
      if cur == None {
        return None;
      }
      cur := if cur.value + 1 < |rules| then Some(cur.value + 1) else None;
      n := if cur == None then None else Some(rules[cur.value]);
    }

    /**
     * rules_append: parse one line and, when it is a rule, link it in at the
     * tail with the next number and leave the cursor on it. Returns 1 for a
     * NULL buffer or a refused line, 0 for a rule or for a blank or comment
     * line; in every case but a new rule the list is left as it was. An
     * unknown account name ends the process.
     */
    method Append(buf: Option<string>, lineno: nat, T: Tables) returns (st: Status)
      requires Valid()
      requires buf.Some? ==> Fits(Tokens(buf.value), ':' in buf.value, T)
      modifies this
      ensures Valid()
      ensures buf.None? ==> st == Returned(1) && unchanged(this)
      ensures buf.Some? ==>
        match Parse(buf.value, T)
        case Ok(r) =>
          st == Returned(0) && rules == old(rules) + [r.(num := old(cnt))] &&
          cnt == old(cnt) + 1 && cur == Some(old(cnt))
        case Skip => st == Returned(0) && unchanged(this)
        case Fail(_) => st == Returned(1) && unchanged(this)
        case Exit => st == Exited(1)
    {
      if buf.None? {
        return Returned(1);
      }
      var node := new Node();
      var rc := node.NvSplit(buf.value, T);
      if rc != Returned(0) {
        // the node is released
        if rc.Exited? {
          return rc;
        }
        return if rc.rc < 0 then Returned(0) else Returned(1);
      }
      Last();
      rules := rules + [node.View().(num := cnt)];
      cur := Some(cnt);
      cnt := cnt + 1;
      return Returned(0);
    }

    /**
     * rules_unsupport_audit (audit-enabled builds): strip the audit bit from
     * every rule's decision, leaving everything else as it was.
     */
    method UnsupportAudit()
      requires Valid()
      modifies this`rules
      ensures Valid()
      ensures |rules| == |old(rules)|
      ensures forall k :: 0 <= k < |rules| ==>
        rules[k] == old(rules)[k].(d := old(rules)[k].d.(audit := false))
    {
      var k := 0;
      while k < |rules|
        invariant 0 <= k <= |rules| == |old(rules)|
        invariant Valid()
        invariant forall j :: 0 <= j < k ==> rules[j] == old(rules)[j].(d := old(rules)[j].d.(audit := false))
        invariant forall j :: k <= j < |rules| ==> rules[j] == old(rules)[j]
      {
        rules := rules[k := rules[k].(d := rules[k].d.(audit := false))];
        k := k + 1;
      }
    }

    /** rules_clear: release every node; the list is empty again, also when it already was. */
    method Clear()
      modifies this
      ensures Valid() && rules == [] && cur == None && cnt == 0
    {
      rules := [];
      cur := None;
      cnt := 0;
    }
  }
}
