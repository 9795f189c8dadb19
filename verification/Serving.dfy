/** The life of the operator: one reconciler at a time, replaced by a fresh one whenever its process dies. */
module Serving {
  import opened Reconciliation
  import opened Platform
  import opened Environment
  import opened Controller
  import Theorems

  /** What the class does over any sequence of triggers is a run of the specification. */
  method Serve(x: Setup, w0: World, ts: seq<Trigger>) returns (out: Outside)
    ensures fresh(out) && out.x == x
    ensures out.w == Run(x, w0, FRESH, ts).0
    ensures Theorems.Untouched(w0) ==> Theorems.Reachable(x, out.w)
  {
    hide Reconciliation.Reconcile;
    out := new Outside(x, w0);
    var r := new SecretReconciler(out);
    for i := 0 to |ts|
      invariant fresh(out) && fresh(r) && out.x == x && r.out == out && r.Valid()
      invariant Run(x, out.w, r.Memory(), ts[i..]) == Run(x, w0, FRESH, ts)
    {
      var rest := ts[i..];
      assert rest[0] == ts[i] && rest[1..] == ts[i + 1..];
      match ts[i]
      case Restarted =>
        r := new SecretReconciler(out);
      case Reconciled(name) =>
        var _ := r.Reconcile(name);
        if out.w.down {
          out.w := out.w.(down := false);
          r := new SecretReconciler(out);
        }
    }
  }
}
