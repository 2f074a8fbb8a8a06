/** The checkpoint table, shared by the audit collector and the collection runtime
    (collectors/persistence/core.py). */
module Checkpoints {
  import opened Basics

  // control.collector_checkpoint, keyed by (tenant_id, collector_id).
  type CheckpointTable = map<(int, string), int>

  const COLLECTOR := "onedrive_audit"

  // The conditional upsert: a stored checkpoint is only ever replaced by a later one.
  function Advanced(t: CheckpointTable, tenant: int, collector: string, at: int): CheckpointTable {
    if (tenant, collector) in t && t[(tenant, collector)] >= at then t else t[(tenant, collector) := at]
  }

  // The unconditional upsert that a passing endpoint run makes under its own endpoint id.
  function Touched(t: CheckpointTable, tenant: int, endpoint: string, at: int): CheckpointTable {
    t[(tenant, endpoint) := at]
  }

  function CheckpointOf(t: CheckpointTable, tenant: int): Option<int> {
    if (tenant, COLLECTOR) in t then Some(t[(tenant, COLLECTOR)]) else None
  }

  /** A tenant's audit checkpoint is raised to a later time or left alone, and no other key moves. */
  lemma AdvancedIsMaximum(t: CheckpointTable, tenant: int, at: int, key: (int, string))
    ensures var a := Advanced(t, tenant, COLLECTOR, at);
            if key == (tenant, COLLECTOR) then
              key in a && a[key] == (if key in t then Max(t[key], at) else at)
            else ((key in a <==> key in t) && (key in t ==> a[key] == t[key]))
  {
  }

  /** A passing endpoint run leaves the audit checkpoint of a tenant alone exactly when it is another
      tenant's, or runs under another id, or happens to write the value already there. */
  lemma TouchedKeepsAuditIff(t: CheckpointTable, tenant: int, endpoint: string, at: int, audited: int)
    ensures CheckpointOf(Touched(t, tenant, endpoint, at), audited) == CheckpointOf(t, audited) <==>
            tenant != audited || endpoint != COLLECTOR || CheckpointOf(t, audited) == Some(at)
  {
  }
}
