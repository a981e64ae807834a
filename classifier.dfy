/** The action classifier: which findings one resource change produces, and
    the findings of a whole plan in plan order. */
module Classifier {
  import opened DriftTypes
  import opened Severity

  const TerraformSource := "terraform"
  const UpdateMessage := "Terraform resource drift detected (update)"
  const DeleteMessage := "Resource marked for deletion due to drift"
  const CreateMessage := "Terraform plans to create missing resource"

  /** Linear search with early return for `target` among the actions. */
  method Contains(actions: seq<Action>, target: Action) returns (found: bool)
    ensures found <==> target in actions
  {
    var i := 0;
    while i < |actions|
      invariant 0 <= i <= |actions|
      invariant target !in actions[..i]
    {
      if actions[i] == target {
        return true;
      }
      i := i + 1;
    }
    assert actions[..i] == actions;
    return false;
  }

  function UpdateFinding(id: string): ScanResult {
    ScanResult(TerraformSource, id, ActionUpdate, Warning, UpdateMessage)
  }

  function DeleteFinding(id: string): ScanResult {
    ScanResult(TerraformSource, id, ActionDelete, Critical, DeleteMessage)
  }

  function CreateFinding(id: string): ScanResult {
    ScanResult(TerraformSource, id, ActionCreate, Warning, CreateMessage)
  }

  /** The findings for one resource change: update, then delete, then create,
      each present when its action occurs at least once. */
  function Classify(rc: ResourceChange): seq<ScanResult>
  {
    var id := ResourceId(rc);
    (if ActionUpdate in rc.actions then [UpdateFinding(id)] else []) +
    (if ActionDelete in rc.actions then [DeleteFinding(id)] else []) +
    (if ActionCreate in rc.actions then [CreateFinding(id)] else [])
  }

  /** The findings of a plan: each resource change's findings appended in the
      plan's order (defined from the last entry, as the loop appends). */
  function ClassifyAll(changes: seq<ResourceChange>): seq<ScanResult>
  {
    if changes == [] then []
    else ClassifyAll(changes[..|changes| - 1]) + Classify(changes[|changes| - 1])
  }

  /** The classification loop: for every resource change of the plan, in
      order, append an update, a delete and a create finding when the
      corresponding action is among its actions. */
  method CollectDrift(changes: seq<ResourceChange>) returns (results: seq<ScanResult>)
    ensures results == ClassifyAll(changes)
  {
    results := [];
    for i := 0 to |changes|
      invariant results == ClassifyAll(changes[..i])
    {
      assert changes[..i + 1][..i] == changes[..i];
      var rc := changes[i];
      var resName := ResourceId(rc);
      var hasUpdate := Contains(rc.actions, ActionUpdate);
      if hasUpdate {
        results := results + [UpdateFinding(resName)];
      }
      var hasDelete := Contains(rc.actions, ActionDelete);
      if hasDelete {
        results := results + [DeleteFinding(resName)];
      }
      var hasCreate := Contains(rc.actions, ActionCreate);
      if hasCreate {
        results := results + [CreateFinding(resName)];
      }
    }
    assert changes[..|changes|] == changes;
  }

  /** How many records carry the change type `ct`. */
  function CountChangeType(rs: seq<ScanResult>, ct: string): nat
  {
    if rs == [] then 0
    else (if rs[0].changeType == ct then 1 else 0) + CountChangeType(rs[1..], ct)
  }

  /** Position of a change type in the order the classifier emits them. */
  function EmitRank(ct: string): int {
    if ct == ActionUpdate then 0 else if ct == ActionDelete then 1 else 2
  }

  lemma {:induction false} CountChangeTypeAppend(a: seq<ScanResult>, b: seq<ScanResult>, ct: string)
    ensures CountChangeType(a + b, ct) == CountChangeType(a, ct) + CountChangeType(b, ct)
  {
    if a == [] {
      assert a + b == b;
    } else {
      assert (a + b)[0] == a[0];
      assert (a + b)[1..] == a[1..] + b;
      CountChangeTypeAppend(a[1..], b, ct);
    }
  }

  /** Each known action on a resource yields exactly one finding of its own
      change type, however often the action is repeated, and none when it is
      absent; every finding names the resource and the "terraform" source,
      with the severity and message fixed by its change type. */
  lemma ClassifyOneRecordPerAction(rc: ResourceChange)
    ensures CountChangeType(Classify(rc), ActionUpdate) == if ActionUpdate in rc.actions then 1 else 0
    ensures CountChangeType(Classify(rc), ActionDelete) == if ActionDelete in rc.actions then 1 else 0
    ensures CountChangeType(Classify(rc), ActionCreate) == if ActionCreate in rc.actions then 1 else 0
    ensures |Classify(rc)| == CountChangeType(Classify(rc), ActionUpdate)
                              + CountChangeType(Classify(rc), ActionDelete)
                              + CountChangeType(Classify(rc), ActionCreate)
  {
    var id := ResourceId(rc);
    var u := if ActionUpdate in rc.actions then [UpdateFinding(id)] else [];
    var d := if ActionDelete in rc.actions then [DeleteFinding(id)] else [];
    var c := if ActionCreate in rc.actions then [CreateFinding(id)] else [];
    assert Classify(rc) == u + d + c;
    CountChangeTypeAppend(u + d, c, ActionUpdate);
    CountChangeTypeAppend(u, d, ActionUpdate);
    CountChangeTypeAppend(u + d, c, ActionDelete);
    CountChangeTypeAppend(u, d, ActionDelete);
    CountChangeTypeAppend(u + d, c, ActionCreate);
    CountChangeTypeAppend(u, d, ActionCreate);
  }

  /** What every finding of one resource looks like, and their order. */
  lemma ClassifyRecordShape(rc: ResourceChange)
    ensures |Classify(rc)| <= 3
    ensures Classify(rc) == [] <==>
              ActionUpdate !in rc.actions && ActionDelete !in rc.actions && ActionCreate !in rc.actions
    ensures forall r :: r in Classify(rc) ==>
              r.source == TerraformSource && r.resource == ResourceId(rc) && r.changeType in rc.actions
    ensures forall r :: r in Classify(rc) ==>
              (r.changeType == ActionUpdate && r.severity == Warning && r.message == UpdateMessage) ||
              (r.changeType == ActionDelete && r.severity == Critical && r.message == DeleteMessage) ||
              (r.changeType == ActionCreate && r.severity == Warning && r.message == CreateMessage)
    ensures forall i, j :: 0 <= i < j < |Classify(rc)| ==>
              EmitRank(Classify(rc)[i].changeType) < EmitRank(Classify(rc)[j].changeType)
  {
  }

  lemma {:induction false} ClassifyAllAppend(a: seq<ResourceChange>, b: seq<ResourceChange>)
    ensures ClassifyAll(a + b) == ClassifyAll(a) + ClassifyAll(b)
    decreases |b|
  {
    if b == [] {
      assert a + b == a;
    } else {
      var init := b[..|b| - 1];
      assert (a + b)[..|a + b| - 1] == a + init;
      ClassifyAllAppend(a, init);
    }
  }

  /** A plan's findings are its first entry's findings followed by those of
      the rest of the plan. */
  lemma ClassifyAllCons(rc: ResourceChange, rest: seq<ResourceChange>)
    ensures ClassifyAll([rc] + rest) == Classify(rc) + ClassifyAll(rest)
  {
    ClassifyAllAppend([rc], rest);
    assert [rc][..0] == [];
  }

  /** Every finding of a plan comes from one of its entries: it is one of
      that entry's findings, so it names that resource, the "terraform"
      source, and a warning or critical severity. */
  lemma {:induction false} ClassifyAllProvenance(changes: seq<ResourceChange>)
    ensures forall r :: r in ClassifyAll(changes) ==>
              r.source == TerraformSource && SeverityLevel(r.severity) >= 2 &&
              (r.severity == Critical <==> r.changeType == ActionDelete) &&
              exists k :: 0 <= k < |changes| && r in Classify(changes[k]) && r.resource == ResourceId(changes[k])
  {
    if changes != [] {
      var init := changes[..|changes| - 1];
      var last := changes[|changes| - 1];
      ClassifyAllProvenance(init);
      ClassifyRecordShape(last);
      forall r | r in ClassifyAll(changes)
        ensures r.source == TerraformSource && SeverityLevel(r.severity) >= 2 &&
                (r.severity == Critical <==> r.changeType == ActionDelete) &&
                exists k :: 0 <= k < |changes| && r in Classify(changes[k]) && r.resource == ResourceId(changes[k])
      {
        if r in ClassifyAll(init) {
          var k :| 0 <= k < |init| && r in Classify(init[k]) && r.resource == ResourceId(init[k]);
          assert changes[k] == init[k];
        } else {
          assert r in Classify(last);
        }
      }
    }
  }

  /** Some record carries change type `ct` exactly when the count is positive. */
  lemma {:induction false} CountChangeTypePositive(rs: seq<ScanResult>, ct: string)
    ensures CountChangeType(rs, ct) > 0 <==> exists i :: 0 <= i < |rs| && rs[i].changeType == ct
  {
    if rs != [] {
      CountChangeTypePositive(rs[1..], ct);
      if rs[0].changeType != ct && CountChangeType(rs[1..], ct) == 0 {
        forall i | 0 <= i < |rs|
          ensures rs[i].changeType != ct
        {
          if i > 0 {
            assert rs[i] == rs[1..][i - 1];
          }
        }
      } else if rs[0].changeType != ct {
        var i :| 0 <= i < |rs[1..]| && rs[1..][i].changeType == ct;
        assert rs[i + 1] == rs[1..][i];
      }
    }
  }

  /** Number of plan entries on which `a` is among the actions. */
  function EntriesWith(changes: seq<ResourceChange>, a: Action): nat
  {
    if changes == [] then 0
    else EntriesWith(changes[..|changes| - 1], a) + (if a in changes[|changes| - 1].actions then 1 else 0)
  }

  /** A plan yields exactly one finding of a change type per entry that
      carries that action. */
  lemma {:induction false} ClassifyAllCounts(changes: seq<ResourceChange>)
    ensures CountChangeType(ClassifyAll(changes), ActionUpdate) == EntriesWith(changes, ActionUpdate)
    ensures CountChangeType(ClassifyAll(changes), ActionDelete) == EntriesWith(changes, ActionDelete)
    ensures CountChangeType(ClassifyAll(changes), ActionCreate) == EntriesWith(changes, ActionCreate)
    ensures |ClassifyAll(changes)| ==
              EntriesWith(changes, ActionUpdate) + EntriesWith(changes, ActionDelete) + EntriesWith(changes, ActionCreate)
  {
    if changes != [] {
      var init := changes[..|changes| - 1];
      var last := changes[|changes| - 1];
      ClassifyAllCounts(init);
      ClassifyOneRecordPerAction(last);
      CountChangeTypeAppend(ClassifyAll(init), Classify(last), ActionUpdate);
      CountChangeTypeAppend(ClassifyAll(init), Classify(last), ActionDelete);
      CountChangeTypeAppend(ClassifyAll(init), Classify(last), ActionCreate);
    }
  }
}
