/**
 The outside world as the operator's code meets it: calls that change it and return a
 reply. What each call does is defined in Platform.dfy.
 */
module Environment {
  import opened Prelude
  import opened Errors
  import Platform

  class Outside {
    const x: Platform.Setup
    var w: Platform.World

    constructor (x: Platform.Setup, w: Platform.World)
      ensures this.x == x && this.w == w
    {
      this.x := x;
      this.w := w;
    }

    // ---------------------------------------------------------------- the API server

    method Get(name: string) returns (reply: Platform.GetReply)
      modifies this
      ensures (w, reply) == Platform.Get(x, old(w), name)
    {
      var (v, r) := Platform.Get(x, w, name);
      w, reply := v, r;
    }

    method Patch(base: Platform.Copy, ann: Platform.Annotations, purpose: Platform.Purpose)
      returns (updated: Platform.Copy, reply: Platform.PatchReply)
      modifies this
      ensures (w, updated, reply) == Platform.Patch(x, old(w), base, ann, purpose)
    {
      var (v, d, r) := Platform.Patch(x, w, base, ann, purpose);
      w, updated, reply := v, d, r;
    }

    // ---------------------------------------------------------------- the gateway

    method GetVersion() returns (r: Result<int, Err>)
      modifies this
      ensures (w, r) == Platform.GetVersion(x, old(w))
    {
      var (v, version) := Platform.GetVersion(x, w);
      w, r := v, version;
    }

    method PostRaw(kind: Platform.PostKind, raw: Bytes, version: int) returns (err: Option<Err>)
      modifies this
      ensures (w, err) == Platform.PostRaw(x, old(w), kind, raw, version)
    {
      var (v, e) := Platform.PostRaw(x, w, kind, raw, version);
      w, err := v, e;
    }

    method GetRaw() returns (r: Result<Bytes, Err>)
      modifies this
      ensures (w, r) == Platform.ReadLive(x, old(w))
    {
      var (v, live) := Platform.ReadLive(x, w);
      w, r := v, live;
    }

    method GetCertificate(file: string) returns (r: Result<Platform.Remote, Err>)
      modifies this
      ensures (w, r) == Platform.ReadCertificate(x, old(w), file)
    {
      var (v, remote) := Platform.ReadCertificate(x, w, file);
      w, r := v, remote;
    }

    method PutCertificate(name: string, bundle: Bytes) returns (err: Option<Err>)
      modifies this
      ensures (w, err) == Platform.WriteCertificate(x, old(w), name, bundle)
    {
      var (v, e) := Platform.WriteCertificate(x, w, name, bundle);
      w, err := v, e;
    }

    /** The mounted credentials, or the SPIRE agent, from which a client is built. */
    method Credentials() returns (err: Option<Err>)
      modifies this
      ensures (w, err) == Platform.BuildClient(x, old(w))
    {
      var (v, e) := Platform.BuildClient(x, w);
      w, err := v, e;
    }

    // ---------------------------------------------------------------- clocks, contexts and the trace

    predicate DeadlinePassed()
      reads this
    {
      x.env(w.clock).expired
    }

    function Cancelled(): Option<LeafKind>
      reads this
    {
      x.env(w.clock).cancelled
    }

    function Now(): Platform.Item
      reads this
    {
      x.env(w.clock)
    }

    method Note(e: Platform.Event)
      modifies this
      ensures w == Platform.Note(old(w), e)
    {
      w := Platform.Note(w, e);
    }
  }
}
