/** The lifecycle of a job group: a table of transitions, and what the queries over it answer. */
module StateMachine {
  datatype Status = CREATED | DISPATCHED | RUNNING | AGGREGATING | COMPLETED | FAILED

  datatype Rule = Rule(from: Status, to: Status, locked: bool)

  const RULES: seq<Rule> := [
    Rule(CREATED, DISPATCHED, false),
    Rule(DISPATCHED, RUNNING, false),
    Rule(RUNNING, AGGREGATING, true),
    Rule(AGGREGATING, COMPLETED, true),
    Rule(CREATED, FAILED, false),
    Rule(DISPATCHED, FAILED, false),
    Rule(RUNNING, FAILED, false),
    Rule(AGGREGATING, FAILED, true)
  ]

  predicate IsValidTransition(from: Status, to: Status) {
    exists i :: 0 <= i < |RULES| && RULES[i].from == from && RULES[i].to == to
  }

  /** The lock flag of the first rule for the edge, false if there is none. */
  function LockOf(rules: seq<Rule>, from: Status, to: Status): bool {
    if rules == [] then false
    else if rules[0].from == from && rules[0].to == to then rules[0].locked
    else LockOf(rules[1..], from, to)
  }

  predicate RequiresLock(from: Status, to: Status) {
    LockOf(RULES, from, to)
  }

  function Targets(rules: seq<Rule>, from: Status): seq<Status> {
    if rules == [] then []
    else (if rules[0].from == from then [rules[0].to] else []) + Targets(rules[1..], from)
  }

  function NextStates(from: Status): seq<Status> {
    Targets(RULES, from)
  }

  predicate IsTerminal(s: Status) {
    s == COMPLETED || s == FAILED
  }

  /** How far along its life a group is. */
  function Age(s: Status): nat {
    match s
    case CREATED => 0
    case DISPATCHED => 1
    case RUNNING => 2
    case AGGREGATING => 3
    case COMPLETED => 4
    case FAILED => 4
  }

  lemma EveryRule(i: nat)
    requires i < |RULES|
    ensures !IsTerminal(RULES[i].from)
    ensures RULES[i].to == FAILED || Age(RULES[i].to) == Age(RULES[i].from) + 1
    ensures RULES[i].locked <==> RULES[i].from == AGGREGATING || RULES[i].to == AGGREGATING
  {
  }

  /** The table in words: one step at a time along the main line, or to FAILED from any state that is
      not terminal. */
  lemma TableMeans(from: Status, to: Status)
    ensures IsValidTransition(from, to) <==> !IsTerminal(from) && (to == FAILED || Age(to) == Age(from) + 1)
  {
    if IsValidTransition(from, to) {
      var i :| 0 <= i < |RULES| && RULES[i].from == from && RULES[i].to == to;
      EveryRule(i);
    }
    assert RULES[0].to == DISPATCHED && RULES[1].to == RUNNING && RULES[2].to == AGGREGATING
      && RULES[3].to == COMPLETED;
    assert RULES[4].from == CREATED && RULES[5].from == DISPATCHED && RULES[6].from == RUNNING
      && RULES[7].from == AGGREGATING;
  }

  /** The table edge by edge. */
  lemma TableEdges(from: Status, to: Status)
    ensures IsValidTransition(from, to) <==> (from, to) in {
      (CREATED, DISPATCHED), (DISPATCHED, RUNNING), (RUNNING, AGGREGATING), (AGGREGATING, COMPLETED),
      (CREATED, FAILED), (DISPATCHED, FAILED), (RUNNING, FAILED), (AGGREGATING, FAILED)}
  {
    TableMeans(from, to);
  }

  /** The lock guards exactly the valid edges into and out of AGGREGATING. */
  lemma LockMeans(from: Status, to: Status)
    ensures RequiresLock(from, to) <==> IsValidTransition(from, to) && (from == AGGREGATING || to == AGGREGATING)
  {
    LockFound(RULES, from, to);
    if RequiresLock(from, to) {
      var i :| 0 <= i < |RULES| && RULES[i] == Rule(from, to, true);
      EveryRule(i);
    } else if IsValidTransition(from, to) {
      var i :| 0 <= i < |RULES| && RULES[i].from == from && RULES[i].to == to;
      EveryRule(i);
      assert RULES[i] == Rule(from, to, RULES[i].locked);
      if RULES[i].locked {
        var k :| 0 <= k < |RULES| && RULES[k] == Rule(from, to, false);
        EveryRule(k);
      }
    }
  }

  lemma {:induction false} LockFound(rules: seq<Rule>, from: Status, to: Status)
    ensures LockOf(rules, from, to) ==> exists i :: 0 <= i < |rules| && rules[i] == Rule(from, to, true)
    ensures !LockOf(rules, from, to) && (exists i :: 0 <= i < |rules| && rules[i] == Rule(from, to, true))
      ==> exists i :: 0 <= i < |rules| && rules[i] == Rule(from, to, false)
  {
    if rules != [] {
      LockFound(rules[1..], from, to);
      assert rules == [rules[0]] + rules[1..];
    }
  }

  /** Three queries, one table: the next states are the valid targets, and terminal states have none. */
  lemma NextStatesAreValid(from: Status, to: Status)
    ensures to in NextStates(from) <==> IsValidTransition(from, to)
    ensures NextStates(from) == [] <==> IsTerminal(from)
  {
    TargetsFound(RULES, from, to);
    TargetsFound(RULES, from, FAILED);
    TableMeans(from, to);
    TableMeans(from, FAILED);
    if NextStates(from) != [] {
      var t := NextStates(from)[0];
      TargetsFound(RULES, from, t);
      TableMeans(from, t);
    }
  }

  lemma {:induction false} TargetsFound(rules: seq<Rule>, from: Status, to: Status)
    ensures to in Targets(rules, from) <==> exists i :: 0 <= i < |rules| && rules[i].from == from && rules[i].to == to
  {
    if rules != [] {
      TargetsFound(rules[1..], from, to);
      assert rules == [rules[0]] + rules[1..];
    }
  }
}
