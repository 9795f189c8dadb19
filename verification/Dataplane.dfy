/** The Dataplane client's request sequences (internal/haproxy/dataplane_client.go), as functions. */
module Dataplane {
  import opened Prelude
  import opened Errors
  import opened Platform

  /** 10 seconds of readiness probes, at least 250 ms apart. */
  const MAX_POLLS: nat := 40

  const NOT_READY := Leaf(Opaque, PLAIN)

  /** Every failure of the version read is marked as one: it is no verdict on a configuration. */
  function ReadVersion(x: Setup, w: World): (World, Result<int, Err>) {
    var (v, version) := GetVersion(x, w);
    (v, if version.Failure? then Failure(VersionCheckError(version.error)) else version)
  }

  /** Probe until the version read succeeds, the deadline passes or the context ends. */
  function Poll(x: Setup, w: World, polls: nat, last: Option<Err>): (World, Option<Err>)
    requires polls <= MAX_POLLS
    decreases MAX_POLLS - polls
  {
    if polls == MAX_POLLS || x.env(w.clock).expired then
      (w, Some(if last.Some? then last.value else NOT_READY))
    else
      var (v, version) := ReadVersion(x, w);
      if version.Success? then (v, None)
      else
        var ended := x.env(v.clock).cancelled;
        if ended.Some? then (v, Some(Leaf(ended.value, PLAIN)))
        else Poll(x, v, polls + 1, Some(version.error))
  }

  function WaitForReady(x: Setup, w: World): (World, Option<Err>) {
    Poll(x, w, 0, None)
  }

  function PostAtVersion(x: Setup, w: World, kind: PostKind, raw: Bytes): (World, Option<Err>) {
    var (v, version) := ReadVersion(x, w);
    if version.Failure? then (v, Some(version.error)) else PostRaw(x, v, kind, raw, version.value)
  }

  function ValidateRaw(x: Setup, w: World, raw: Bytes): (World, Option<Err>) {
    PostAtVersion(x, w, ValidateOnly, raw)
  }

  function ApplyValidated(x: Setup, w: World, raw: Bytes): (World, Option<Err>) {
    var (v, err) := WaitForReady(x, w);
    if err.Some? then (v, Some(Context(PLAIN, err.value))) else PostAtVersion(x, v, Apply, raw)
  }

  /** Validation and apply in one call, as the local runner uses it. */
  function ApplyUnvalidated(x: Setup, w: World, raw: Bytes): (World, Option<Err>) {
    var (v, notReady) := WaitForReady(x, w);
    if notReady.Some? then (v, Some(Context(PLAIN, notReady.value)))
    else
      var (u, invalid) := ValidateRaw(x, v, raw);
      if invalid.Some? then (u, Some(Context(PLAIN, invalid.value))) else PostAtVersion(x, u, Apply, raw)
  }

  /** The serial of the first CERTIFICATE block; blocks of other types are passed over. */
  function LeafSerial(blocks: seq<Block>): (r: Result<string, Err>)
    ensures r.Failure? ==> r.error == Leaf(Opaque, PLAIN)
  {
    if |blocks| == 0 then Failure(Leaf(Opaque, PLAIN))
    else if !blocks[0].isCertificate then LeafSerial(blocks[1..])
    else if blocks[0].serial.Some? then Success(blocks[0].serial.value)
    else Failure(Leaf(Opaque, PLAIN))
  }

  predicate MetadataMatches(remote: Remote, localSerial: string, size: nat) {
    remote.serial != "" && remote.serial == localSerial && (remote.size == 0 || remote.size == size)
  }

  /** Whether the stored object was written; a write is skipped only on matching metadata and a recorded hash. */
  function SyncSSLCertificate(x: Setup, w: World, name: string, bundle: Bytes, previouslySynced: bool)
    : (World, Result<bool, Err>)
  {
    var serial := LeafSerial(x.pem(bundle));
    if serial.Failure? then (w, Failure(serial.error))
    else
      var (v, notReady) := WaitForReady(x, w);
      if notReady.Some? then (v, Failure(Context(PLAIN, notReady.value)))
      else
        var (u, remote) := ReadCertificate(x, v, StorageName(name));
        if remote.Failure? && AsAPIError(remote.error) != Some(404) then (u, Failure(remote.error))
        else if remote.Success? && MetadataMatches(remote.value, serial.value, |bundle|) && previouslySynced then
          (Note(u, CertSkipped(u.run, name, bundle, serial.value, remote.value)), Success(false))
        else
          var (t, err) := WriteCertificate(x, u, name, bundle);
          (t, if err.Some? then Failure(err.value) else Success(true))
  }
}
