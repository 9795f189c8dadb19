/**
 The Dataplane client as the source writes it: loops and calls that change the gateway
 (internal/haproxy/dataplane_client.go). Each method computes the function of the same
 name in Dataplane.dfy.
 */
module DataplaneClient {
  import opened Prelude
  import opened Errors
  import Platform
  import Dataplane
  import opened Environment

  class Client {
    const out: Outside

    constructor (out: Outside)
      ensures this.out == out
    {
      this.out := out;
    }

    /** Whatever fails here is wrapped, so that its status is not taken for a verdict on a configuration. */
    method GetConfigVersion() returns (r: Result<int, Err>)
      modifies out
      ensures (out.w, r) == Dataplane.ReadVersion(out.x, old(out.w))
      ensures r.Failure? ==> r.error.VersionCheckError? && (!IsLocalRejection(r.error) ==> Transient(Classify(r.error)))
    {
      r := out.GetVersion();
      if r.Failure? {
        r := Failure(VersionCheckError(r.error));
      }
    }

    method WaitForReady() returns (err: Option<Err>)
      modifies out
      ensures (out.w, err) == Dataplane.WaitForReady(out.x, old(out.w))
    {
      var last: Option<Err> := None;
      var polls := 0;
      while polls < Dataplane.MAX_POLLS && !out.DeadlinePassed()
        invariant polls <= Dataplane.MAX_POLLS
        invariant Dataplane.Poll(out.x, out.w, polls, last) == Dataplane.Poll(out.x, old(out.w), 0, None)
      {
        var version := GetConfigVersion();
        if version.Success? {
          return None;
        }
        last := Some(version.error);
        var ended := out.Cancelled();
        if ended.Some? {
          return Some(Leaf(ended.value, PLAIN));
        }
        polls := polls + 1;
      }
      err := if last.None? then Some(Dataplane.NOT_READY) else last;
    }

    method ApplyRaw(raw: Bytes) returns (err: Option<Err>)
      modifies out
      ensures (out.w, err) == Dataplane.PostAtVersion(out.x, old(out.w), Platform.Apply, raw)
    {
      var version := GetConfigVersion();
      if version.Failure? {
        return Some(version.error);
      }
      err := out.PostRaw(Platform.Apply, raw, version.value);
    }

    method ValidateRawConfiguration(raw: Bytes) returns (err: Option<Err>)
      modifies out
      ensures (out.w, err) == Dataplane.ValidateRaw(out.x, old(out.w), raw)
    {
      var version := GetConfigVersion();
      if version.Failure? {
        return Some(version.error);
      }
      err := out.PostRaw(Platform.ValidateOnly, raw, version.value);
    }

    method ApplyRawConfigurationValidated(raw: Bytes) returns (err: Option<Err>)
      modifies out
      ensures (out.w, err) == Dataplane.ApplyValidated(out.x, old(out.w), raw)
    {
      var notReady := WaitForReady();
      if notReady.Some? {
        return Some(Context(PLAIN, notReady.value));
      }
      err := ApplyRaw(raw);
    }

    /** Wait, validate, apply: what the local runner calls. */
    method ApplyRawConfiguration(raw: Bytes) returns (err: Option<Err>)
      modifies out
      ensures (out.w, err) == Dataplane.ApplyUnvalidated(out.x, old(out.w), raw)
    {
      var notReady := WaitForReady();
      if notReady.Some? {
        return Some(Context(PLAIN, notReady.value));
      }
      var invalid := ValidateRawConfiguration(raw);
      if invalid.Some? {
        return Some(Context(PLAIN, invalid.value));
      }
      err := ApplyRaw(raw);
    }

    method GetRawConfiguration() returns (r: Result<Bytes, Err>)
      modifies out
      ensures (out.w, r) == Platform.ReadLive(out.x, old(out.w))
    {
      r := out.GetRaw();
    }

    /** `changed`: the stored object was created or replaced. */
    method SyncSSLCertificate(name: string, bundle: Bytes, previouslySynced: bool) returns (changed: Result<bool, Err>)
      modifies out
      ensures (out.w, changed) == Dataplane.SyncSSLCertificate(out.x, old(out.w), name, bundle, previouslySynced)
    {
      var localSerial := LeafSerial(out.x.pem(bundle));
      if localSerial.Failure? {
        return Failure(localSerial.error);
      }
      var notReady := WaitForReady();
      if notReady.Some? {
        return Failure(Context(PLAIN, notReady.value));
      }
      var remote := out.GetCertificate(Platform.StorageName(name));
      if remote.Failure? && AsAPIError(remote.error) != Some(404) {
        return Failure(remote.error);
      }
      if remote.Success? && previouslySynced && Dataplane.MetadataMatches(remote.value, localSerial.value, |bundle|) {
        out.Note(Platform.CertSkipped(out.w.run, name, bundle, localSerial.value, remote.value));
        return Success(false);
      }
      var err := out.PutCertificate(name, bundle);
      changed := if err.Some? then Failure(err.value) else Success(true);
    }
  }

  /** Decode block after block; the first certificate decides. */
  method LeafSerial(blocks: seq<Platform.Block>) returns (r: Result<string, Err>)
    ensures r == Dataplane.LeafSerial(blocks)
    ensures r.Success? <==> exists k: nat :: FirstCertificate(blocks, k) && blocks[k].serial.Some?
    ensures forall k: nat :: r.Success? && FirstCertificate(blocks, k) ==> blocks[k].serial == Some(r.value)
  {
    var rest := blocks;
    var passed := 0;
    while rest != []
      invariant passed <= |blocks| && rest == blocks[passed..]
      invariant forall j :: 0 <= j < passed ==> !blocks[j].isCertificate
      invariant Dataplane.LeafSerial(rest) == Dataplane.LeafSerial(blocks)
      decreases |rest|
    {
      var block := rest[0];
      assert block == blocks[passed];
      if block.isCertificate {
        assert FirstCertificate(blocks, passed);
        return if block.serial.Some? then Success(block.serial.value) else Failure(Leaf(Opaque, PLAIN));
      }
      rest := rest[1..];
      passed := passed + 1;
    }
    r := Failure(Leaf(Opaque, PLAIN));
  }

  predicate FirstCertificate(blocks: seq<Platform.Block>, k: nat) {
    k < |blocks| && blocks[k].isCertificate && forall j :: 0 <= j < k ==> !blocks[j].isCertificate
  }
}
