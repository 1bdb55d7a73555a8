/** From admission to demand: what a completed import puts into the ledger is what the ledger sync of the
    refill controller counts. */
module Admission {
  import opened Wrappers
  import Manifest
  import Refill

  /** The pool an imported packet is hinted for. */
  function HintOf(role: string): string {
    if role in {"verifier", "reviewer", "plan_expander"} then "k3" else "v4"
  }

  /** A ledger entry as the refill controller reads it. */
  function RowOf(e: Manifest.Entry): Refill.Entry {
    match e.contract
    case None => Refill.Malformed
    case Some(c) => Refill.Entry(e.state, Some(HintOf(c.body.role)), c.body.role, c.parent, Some(c.manifest), false)
  }

  function RegistryOf(parents: map<string, Manifest.Parent>): map<string, Refill.Parent> {
    map id | id in parents :: Refill.Parent(parents[id].active, Some(parents[id].manifest), parents[id].target)
  }

  /** Every task of a completed import that was not in the ledger before is demand: of the pool of its
      role, and of the parent it was imported for. */
  lemma ImportedTasksAreDemand(d: Manifest.Disk, m: Manifest.Manifest, limits: Manifest.Limits, i: nat)
    requires Manifest.Admissible(d, m, limits) && i < |m.tasks| && m.parent != ""
    requires Manifest.Imported(m.id, m.tasks[i].id) !in d.ledger
    ensures var r, pid := Manifest.Written(d, m, Manifest.Nowhere), Manifest.Imported(m.id, m.tasks[i].id);
      var pool := if m.tasks[i].body.role == "worker" then Refill.V4 else Refill.K3;
      && pid in r.ledger
      && Refill.DemandPool(RowOf(r.ledger[pid]), RegistryOf(r.parents)) == Some(pool)
      && Refill.IsDemandOf(RowOf(r.ledger[pid]), RegistryOf(r.parents), m.parent, pool)
  {
    Manifest.DoneMeansAdmitted(d, m, limits, i);
    Manifest.AdmissibleWhen(d, m, limits);
  }
}
