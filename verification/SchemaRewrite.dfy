/** Rewriting the schemas of a document in place: a walk over a cyclic graph with a shared visited
    set that relaxes the strict schemas only responses reach. */
module SchemaRewrite {

  /** A schema's additionalProperties: absent, a flag, or a schema. */
  datatype Additional = Absent | Flag(allowed: bool) | Sub(schema: Schema)

  const STRICT := Flag(false)

  /** One schema object; only additionalProperties is ever assigned. Absent children are null. */
  class Schema {
    const ref: string
    const properties: seq<Schema?>
    const items: Schema?
    const negated: Schema?
    const oneOf: seq<Schema?>
    const anyOf: seq<Schema?>
    const allOf: seq<Schema?>
    var additional: Additional

    constructor (ref: string, properties: seq<Schema?>, items: Schema?, negated: Schema?,
                 oneOf: seq<Schema?>, anyOf: seq<Schema?>, allOf: seq<Schema?>, additional: Additional)
    {
      this.ref, this.properties, this.items, this.negated := ref, properties, items, negated;
      this.oneOf, this.anyOf, this.allOf, this.additional := oneOf, anyOf, allOf, additional;
    }

    /** schemaChildren. */
    function Children(): seq<Schema?>
      reads this
    {
      properties + [items, negated] + (if additional.Sub? then [additional.schema] else []) + oneOf + anyOf + allOf
    }
  }

  type Registry = map<string, Schema?>

  /** The schema a walk visits when it is sent to one: a reference stands for its target. */
  function Target(reg: Registry, s: Schema?): Schema? {
    if s == null then null
    else if s.ref == "" then s
    else if s.ref in reg then reg[s.ref] else null
  }

  /** Where a list of children, or of roots, leads. */
  function Targets(reg: Registry, roots: seq<Schema?>): set<Schema> {
    set c | c in roots && Target(reg, c) != null :: Target(reg, c)
  }

  type Graph = map<Schema, set<Schema>>

  /** g is what the schemas refer to now. Nothing leads out of the schemas, and references resolve to
      schemas that are not references themselves. */
  ghost predicate Depicts(g: Graph, nodes: set<Schema>, reg: Registry)
    reads nodes
  {
    && g.Keys == nodes
    && forall s | s in nodes :: s.ref == "" && g[s] == Targets(reg, s.Children()) && g[s] <= nodes
  }

  /** A walk of k edges from a root. */
  ghost predicate ReachedIn(g: Graph, roots: set<Schema>, s: Schema, k: nat)
  {
    if k == 0 then s in roots
    else exists p | p in g :: s in g[p] && ReachedIn(g, roots, p, k - 1)
  }

  ghost predicate Reachable(g: Graph, roots: set<Schema>, s: Schema) {
    exists k: nat :: ReachedIn(g, roots, s, k)
  }

  /** Everything the visited schemas lead to has been visited. */
  ghost predicate Complete(g: Graph, visited: set<Schema>) {
    forall s | s in visited && s in g :: g[s] <= visited
  }

  lemma {:induction false} CompleteHoldsReachable(g: Graph, roots: set<Schema>, visited: set<Schema>, s: Schema, k: nat)
    requires Complete(g, visited) && roots <= visited && ReachedIn(g, roots, s, k)
    ensures s in visited
    decreases k
  {
    if k > 0 {
      var p :| p in g && s in g[p] && ReachedIn(g, roots, p, k - 1);
      CompleteHoldsReachable(g, roots, visited, p, k - 1);
    }
  }

  lemma ChildReachable(g: Graph, roots: set<Schema>, p: Schema, s: Schema)
    requires p in g && s in g[p] && Reachable(g, roots, p)
    ensures Reachable(g, roots, s)
  {
    var k: nat :| ReachedIn(g, roots, p, k);
    assert ReachedIn(g, roots, s, k + 1);
  }

  // ---- The walk ----

  /** What visiting a schema does to it: nothing while requests are collected, otherwise a strict
      schema outside `spared` gets the replacement. */
  datatype Visit = Collect | Relax(spared: set<Schema>, replacement: Additional)

  predicate Harmless(v: Visit) {
    v.Relax? ==> !v.replacement.Sub? && v.replacement != STRICT
  }

  function Visited(v: Visit, s: Schema, was: Additional): Additional {
    if v.Relax? && s !in v.spared && was == STRICT then v.replacement else was
  }

  /** The schemas visited so far, and no others, have been dealt with; `was` is how things were. */
  ghost predicate Stands(nodes: set<Schema>, was: map<Schema, Additional>, seen: set<Schema>, v: Visit)
    reads nodes
  {
    && was.Keys == nodes
    && forall s | s in nodes :: s.additional == if s in seen then Visited(v, s, was[s]) else was[s]
  }

  ghost predicate AllReachable(g: Graph, roots: set<Schema>, seen: set<Schema>) {
    forall s | s in seen :: Reachable(g, roots, s)
  }

  /** The visited schemas' children have been visited too, except of those still being walked. */
  ghost predicate CompleteBut(g: Graph, seen: set<Schema>, open: set<Schema>) {
    forall s | s in seen && s !in open && s in g :: g[s] <= seen
  }

  /** Relaxing one schema changes neither where it leads nor anything else. */
  method Deal(s: Schema, v: Visit, ghost g: Graph, ghost nodes: set<Schema>, reg: Registry,
              ghost was: map<Schema, Additional>, ghost seen: set<Schema>)
    requires s in nodes && s !in seen && Harmless(v) && Depicts(g, nodes, reg) && Stands(nodes, was, seen, v)
    modifies s`additional
    ensures Depicts(g, nodes, reg) && Stands(nodes, was, seen + {s}, v)
  {
    if v.Relax? && s !in v.spared && s.additional == STRICT {
      ghost var children := s.Children();
      s.additional := v.replacement;
      assert s.Children() == children;
    }
  }

  /** walkSchemaTree, with the visited set as value and result. */
  method Walk(schema: Schema?, reg: Registry, seen: set<Schema>, v: Visit,
              ghost nodes: set<Schema>, ghost g: Graph, ghost was: map<Schema, Additional>, ghost roots: set<Schema>)
    returns (seen': set<Schema>)
    requires Harmless(v) && Depicts(g, nodes, reg) && Stands(nodes, was, seen, v)
    requires seen <= nodes && AllReachable(g, roots, seen)
    requires Target(reg, schema) != null ==> Target(reg, schema) in nodes && Reachable(g, roots, Target(reg, schema))
    modifies nodes`additional
    ensures Depicts(g, nodes, reg) && Stands(nodes, was, seen', v)
    ensures seen <= seen' <= nodes && AllReachable(g, roots, seen')
    ensures Target(reg, schema) != null ==> Target(reg, schema) in seen'
    ensures CompleteBut(g, seen', seen)
    decreases nodes - seen, if schema != null && schema.ref != "" then 3 else 2
  {
    if schema == null {
      return seen;
    }
    if schema.ref != "" {
      var target := if schema.ref in reg then reg[schema.ref] else null;
      assert Target(reg, target) == target;
      seen' := Walk(target, reg, seen, v, nodes, g, was, roots);
      return;
    }
    if schema in seen {
      return seen;
    }
    Deal(schema, v, g, nodes, reg, was, seen);
    seen' := WalkChildren(schema, reg, seen + {schema}, v, nodes, g, was, roots);
  }

  /** The loop over a visited schema's children. */
  method WalkChildren(schema: Schema, reg: Registry, seen: set<Schema>, v: Visit,
                      ghost nodes: set<Schema>, ghost g: Graph, ghost was: map<Schema, Additional>, ghost roots: set<Schema>)
    returns (seen': set<Schema>)
    requires Harmless(v) && Depicts(g, nodes, reg) && Stands(nodes, was, seen, v)
    requires schema in seen && seen <= nodes && AllReachable(g, roots, seen)
    modifies nodes`additional
    ensures Depicts(g, nodes, reg) && Stands(nodes, was, seen', v)
    ensures seen <= seen' <= nodes && AllReachable(g, roots, seen')
    ensures CompleteBut(g, seen', seen - {schema})
    decreases nodes - seen, 4
  {
    seen' := seen;
    var children := schema.Children();
    for i := 0 to |children|
      invariant Depicts(g, nodes, reg) && Stands(nodes, was, seen', v)
      invariant seen <= seen' <= nodes && AllReachable(g, roots, seen')
      invariant Targets(reg, children[..i]) <= seen'
      invariant CompleteBut(g, seen', seen)
    {
      var child := children[i];
      ChildFits(reg, g, nodes, roots, schema, children, i);
      var before := seen';
      seen' := Walk(child, reg, before, v, nodes, g, was, roots);
      TargetsOfMore(reg, children, i, seen');
      CompleteOn(g, before, seen', seen);
    }
    assert children[..|children|] == children;
  }

  lemma ChildFits(reg: Registry, g: Graph, nodes: set<Schema>, roots: set<Schema>, s: Schema, children: seq<Schema?>, i: nat)
    requires s in g && g[s] == Targets(reg, children) && g[s] <= nodes && Reachable(g, roots, s) && i < |children|
    ensures Target(reg, children[i]) != null ==>
      Target(reg, children[i]) in nodes && Reachable(g, roots, Target(reg, children[i]))
  {
    if Target(reg, children[i]) != null {
      assert Target(reg, children[i]) in Targets(reg, children);
      ChildReachable(g, roots, s, Target(reg, children[i]));
    }
  }

  lemma TargetsOfMore(reg: Registry, children: seq<Schema?>, i: nat, seen: set<Schema>)
    requires i < |children| && Targets(reg, children[..i]) <= seen
    requires Target(reg, children[i]) != null ==> Target(reg, children[i]) in seen
    ensures Targets(reg, children[..i + 1]) <= seen
  {
    assert children[..i + 1] == children[..i] + [children[i]];
  }

  lemma CompleteOn(g: Graph, before: set<Schema>, after: set<Schema>, open: set<Schema>)
    requires CompleteBut(g, before, open) && CompleteBut(g, after, before) && before <= after
    ensures CompleteBut(g, after, open)
  {
  }

  // ---- A document ----

  /** The schemas of an operation's request media, if it has a request body, and of its responses' media. */
  datatype Operation = Operation(request: seq<Schema?>, responses: seq<seq<Schema?>>)

  function Flatten(lists: seq<seq<Schema?>>): seq<Schema?> {
    if lists == [] then [] else lists[0] + Flatten(lists[1..])
  }

  function RequestSchemas(ops: seq<Operation>): seq<Schema?> {
    if ops == [] then [] else ops[0].request + RequestSchemas(ops[1..])
  }

  function ResponseSchemas(ops: seq<Operation>): seq<Schema?> {
    if ops == [] then [] else Flatten(ops[0].responses) + ResponseSchemas(ops[1..])
  }

  /** Walks from several schemas with one visited set visit exactly what is reachable from them. */
  method WalkAll(starts: seq<Schema?>, reg: Registry, v: Visit,
                 ghost nodes: set<Schema>, ghost g: Graph, ghost was: map<Schema, Additional>)
    returns (seen: set<Schema>)
    requires Harmless(v) && Depicts(g, nodes, reg) && Stands(nodes, was, {}, v)
    requires Targets(reg, starts) <= nodes
    modifies nodes`additional
    ensures Depicts(g, nodes, reg) && Stands(nodes, was, seen, v)
    ensures forall s | s in nodes :: s in seen <==> Reachable(g, Targets(reg, starts), s)
  {
    ghost var roots := Targets(reg, starts);
    seen := {};
    for i := 0 to |starts|
      invariant Depicts(g, nodes, reg) && Stands(nodes, was, seen, v)
      invariant seen <= nodes && AllReachable(g, roots, seen)
      invariant Targets(reg, starts[..i]) <= seen && CompleteBut(g, seen, {})
    {
      RootFits(reg, g, starts, i);
      var before := seen;
      seen := Walk(starts[i], reg, before, v, nodes, g, was, roots);
      TargetsOfMore(reg, starts, i, seen);
      CompleteOn(g, before, seen, {});
    }
    assert starts[..|starts|] == starts;
    forall s | s in nodes && Reachable(g, roots, s) ensures s in seen {
      var k: nat :| ReachedIn(g, roots, s, k);
      CompleteHoldsReachable(g, roots, seen, s, k);
    }
  }

  lemma RootFits(reg: Registry, g: Graph, starts: seq<Schema?>, i: nat)
    requires i < |starts|
    ensures Target(reg, starts[i]) != null ==>
      Target(reg, starts[i]) in Targets(reg, starts) && Reachable(g, Targets(reg, starts), Target(reg, starts[i]))
  {
    if Target(reg, starts[i]) != null {
      assert ReachedIn(g, Targets(reg, starts), Target(reg, starts[i]), 0);
    }
  }

  /** What a rewrite makes of the schemas: the strict ones that responses reach and requests do not. */
  ghost function Rewritten(g: Graph, was: map<Schema, Additional>, requests: set<Schema>, responses: set<Schema>,
                           replacement: Additional): map<Schema, Additional> {
    map s | s in was ::
      if Reachable(g, responses, s) && !Reachable(g, requests, s) && was[s] == STRICT then replacement else was[s]
  }

  ghost function Snapshot(nodes: set<Schema>): map<Schema, Additional>
    reads nodes
  {
    map s | s in nodes :: s.additional
  }

  /** replaceStrictResponseAdditionalProperties. */
  method ReplaceStrict(ops: seq<Operation>, reg: Registry, replacement: Additional, ghost nodes: set<Schema>, ghost g: Graph)
    requires Depicts(g, nodes, reg) && !replacement.Sub? && replacement != STRICT
    requires Targets(reg, RequestSchemas(ops)) <= nodes && Targets(reg, ResponseSchemas(ops)) <= nodes
    modifies nodes`additional
    ensures Depicts(g, nodes, reg)
    ensures Snapshot(nodes) == Rewritten(g, old(Snapshot(nodes)), Targets(reg, RequestSchemas(ops)),
                                         Targets(reg, ResponseSchemas(ops)), replacement)
  {
    ghost var was := Snapshot(nodes);
    var spared := WalkAll(RequestSchemas(ops), reg, Collect, nodes, g, was);
    var v := Relax(spared, replacement);
    var seen := WalkAll(ResponseSchemas(ops), reg, v, nodes, g, was);
    ghost var made := Rewritten(g, was, Targets(reg, RequestSchemas(ops)), Targets(reg, ResponseSchemas(ops)), replacement);
    assert forall s | s in nodes :: s.additional == made[s];
  }

  /** Rewriting again, with the same or another harmless replacement, changes nothing. */
  lemma RewriteTwice(g: Graph, was: map<Schema, Additional>, requests: set<Schema>, responses: set<Schema>,
                     first: Additional, second: Additional)
    requires first != STRICT
    ensures var once := Rewritten(g, was, requests, responses, first); Rewritten(g, once, requests, responses, second) == once
  {
    var once := Rewritten(g, was, requests, responses, first);
    var twice := Rewritten(g, once, requests, responses, second);
    forall s | s in was ensures twice[s] == once[s] {
      if Reachable(g, responses, s) && !Reachable(g, requests, s) {
        assert once[s] != STRICT;
      }
    }
  }

  /** Two passes over one document: the second finds nothing to do. */
  method ReplaceTwice(ops: seq<Operation>, reg: Registry, first: Additional, second: Additional, ghost nodes: set<Schema>, ghost g: Graph)
    requires Depicts(g, nodes, reg) && !first.Sub? && first != STRICT && !second.Sub? && second != STRICT
    requires Targets(reg, RequestSchemas(ops)) <= nodes && Targets(reg, ResponseSchemas(ops)) <= nodes
    modifies nodes`additional
    ensures Depicts(g, nodes, reg)
    ensures Snapshot(nodes) == Rewritten(g, old(Snapshot(nodes)), Targets(reg, RequestSchemas(ops)),
                                         Targets(reg, ResponseSchemas(ops)), first)
  {
    RewriteTwice(g, Snapshot(nodes), Targets(reg, RequestSchemas(ops)), Targets(reg, ResponseSchemas(ops)), first, second);
    ReplaceStrict(ops, reg, first, nodes, g);
    ReplaceStrict(ops, reg, second, nodes, g);
  }
}
