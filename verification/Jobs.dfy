/** Check jobs (`internal/monitor/job.go`): immutable values and the equality the service's diff uses. */
module Jobs {
  import opened Domain

  /** A Go string slice. A nil slice and an empty one are different values with the same elements. */
  datatype Strings = NilSlice | Slice(items: seq<string>) {
    function Elems(): seq<string> {
      if NilSlice? then [] else items
    }
  }

  datatype CheckType = CheckPing | CheckHTTP | CheckHeadless

  datatype Scheme = SchemeHTTP | SchemeHTTPS

  datatype Method = MethodGET | MethodHEAD

  datatype Host = Host(value: string)

  datatype Path = Path(value: string)

  datatype JobBase = JobBase(
    monitorID: Id,
    configID: Id,
    interval: Duration,
    timeout: Duration,
    maxAttempts: int)

  /** What distinguishes a `PingJob` from an `HTTPJob`, next to the embedded `jobBase`. */
  datatype Probe =
    | PingProbe(host: Host, port: Port)
    | HTTPProbe(scheme: Scheme, host: Host, path: Path, verb: Method, keywords: Strings)
  {
    predicate Equal(other: Probe) {
      match (this, other)
      case (PingProbe(h, p), PingProbe(h', p')) => h == h' && p == p'
      case (HTTPProbe(s, h, p, m, k), HTTPProbe(s', h', p', m', k')) =>
        s == s' && h == h' && p == p' && m == m' && k.Elems() == k'.Elems()
      case _ => false
    }

    /** The probe with its keyword slice brought to one representation. */
    function Canonical(): Probe {
      if HTTPProbe? then this.(keywords := Slice(keywords.Elems())) else this
    }
  }

  datatype CheckJob = CheckJob(base: JobBase, probe: Probe) {
    function CheckType(): CheckType {
      if probe.PingProbe? then CheckPing else CheckHTTP
    }

    /** `PingJob.Equal` and `HTTPJob.Equal`: field-wise within a type, false across types. */
    predicate Equal(other: CheckJob) {
      probe.Equal(other.probe) && base == other.base
    }

    function Canonical(): CheckJob {
      CheckJob(base, probe.Canonical())
    }
  }

  /** `Equal` is equality of canonical forms, so it is an equivalence across both job types. */
  lemma EqualIsCanonicalEquality(a: CheckJob, b: CheckJob)
    ensures a.Equal(b) <==> a.Canonical() == b.Canonical()
    ensures a.Equal(b) ==> a.base == b.base && a.CheckType() == b.CheckType()
  {
  }

  lemma EqualIsEquivalence(a: CheckJob, b: CheckJob, c: CheckJob)
    ensures a.Equal(a)
    ensures a.Equal(b) ==> b.Equal(a)
    ensures a.Equal(b) && b.Equal(c) ==> a.Equal(c)
  {
  }

  type Registry = map<Id, CheckJob>

  /** Two registries agree when they hold the same identifiers with jobs that are `Equal`. */
  ghost predicate Agree(a: Registry, b: Registry) {
    && a.Keys == b.Keys
    && forall id | id in a :: a[id].Equal(b[id])
  }

  /** Every job is filed under its own config identifier. */
  ghost predicate Filed(r: Registry) {
    forall id | id in r :: r[id].base.configID == id
  }
}
