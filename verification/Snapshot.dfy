/** internal/snapshot/snapshot.go: the compiled form packets are answered from. */
module Snapshot {
  import opened Wrappers
  import opened NtpTime
  import opened Address
  import opened View
  import opened Model
  import opened Codec
  import opened Mac

  datatype Key = Key(id: uint32, alg: Algorithm, secret: seq<byte>)

  type KeyTable = map<uint32, Key>

  datatype CompiledFilter = CompiledFilter(name: string, enabled: bool, prefixes: seq<Prefix>, view: View)

  /** config.Warning: where, and a code and message that say what. */
  datatype Warning = Warning(path: Path, notice: Notice)

  datatype Path = AllowlistPath | ViewPath(filter: string) | CidrsPath(index: nat)

  datatype Notice = UniversalAllowlist | ServedTimeClamped | UnsyncStratum | Overlap(first: string, second: string)

  datatype Snapshot = Snapshot(
    canonical: State, revision: string, bootstrapRevision: string, generation: nat, compiledAt: Instant,
    ntpAddress: string, managementAddress: string,
    versions: set<int>, allow: seq<Prefix>, allowDenyAll: bool, restrictDefault: string, kod: bool,
    maxPacketsPerSec: int, maxPacketsPerIp: int, queryLogSize: int,
    filters: seq<CompiledFilter>, keys: Option<KeyTable>, warnings: seq<Warning>)

  predicate InPrefixes(ps: seq<Prefix>, ip: Addr)
  {
    exists k :: 0 <= k < |ps| && (Contains(ps[k], ip.Unmap()) || Contains(ps[k], ip))
  }

  predicate Hits(f: CompiledFilter, ip: Addr) { f.enabled && InPrefixes(f.prefixes, ip) }

  /** Match: the index of the first enabled filter containing ip, in list order,
      never by prefix length (ADR 0009). */
  function Match(fs: seq<CompiledFilter>, ip: Addr): (r: Option<nat>)
    ensures r.Some? ==> r.value < |fs| && Hits(fs[r.value], ip)
    ensures forall j :: 0 <= j < (if r.Some? then r.value else |fs|) ==> !Hits(fs[j], ip)
  {
    if fs == [] then None
    else if Hits(fs[0], ip) then Some(0)
    else
      var r := Match(fs[1..], ip);
      assert forall j :: 1 <= j < |fs| ==> fs[j] == fs[1..][j - 1];
      if r.None? then None else Some(r.value + 1)
  }

  function Allowed(s: Snapshot, ip: Addr): bool
  {
    if s.allowDenyAll then false
    else if s.allow == [] then true
    else InPrefixes(s.allow, ip)
  }

  predicate Drifted(s: Snapshot)
  {
    s.revision != "" && s.bootstrapRevision != "" && s.revision != s.bootstrapRevision
  }

  predicate VersionOk(s: Snapshot, vn: int)
  {
    if s.versions == {} then vn == 3 || vn == 4 else vn in s.versions
  }

  /** No prefix holds anything but a valid address whose unmapped form carries no
      zone, so nothing else is ever matched. */
  predicate Routable(ip: Addr) { ip.Unmap().Valid() && !ip.Unmap().Zoned() }

  lemma OnlyRoutableHit(ps: seq<Prefix>, ip: Addr)
    ensures InPrefixes(ps, ip) ==> Routable(ip)
  {
  }

  /** Enabled, and with a prefix that holds the address as it is written. */
  predicate HitsAsWritten(f: CompiledFilter, ip: Addr)
  {
    f.enabled && exists k :: 0 <= k < |f.prefixes| && Contains(f.prefixes[k], ip)
  }

  lemma HitsEither(ip: Addr)
    requires ip.Is4In6()
    ensures forall f :: Hits(f, ip) <==> Hits(f, ip.Unmap()) || HitsAsWritten(f, ip)
  {
    assert ip.Unmap().Unmap() == ip.Unmap();
    hide Contains;
  }

  /** An IPv4-mapped IPv6 address is matched as its IPv4 address is if and only if
      no enabled filter ahead of the IPv4 match holds the mapped form itself, as any
      IPv6 prefix covering the mapped block does. */
  lemma MappedLikeV4(fs: seq<CompiledFilter>, ip: Addr)
    requires ip.Is4In6()
    ensures var four := Match(fs, ip.Unmap());
            Match(fs, ip) == four <==>
            forall j :: 0 <= j < (if four.Some? then four.value else |fs|) ==> !HitsAsWritten(fs[j], ip)
  {
    hide *;
    HitsEither(ip);
    var four, six := Match(fs, ip.Unmap()), Match(fs, ip);
    if six.Some? && four.Some? {
      assert six.value <= four.value;
    }
  }
}
