/**
 The version probe and the choice of the language-server binary (`discovery.py`).

 The file system and the `--version` probe are functions given from outside: what a
 path canonicalizes to, whether it is executable, and which bytes it prints.
 */
module Discovery {
  import opened Wrappers
  import opened Utf8
  import opened Versions

  /** `MIN_COPILOT_LANGUAGE_SERVER_VERSION` (application_policy.py). */
  const MIN_VERSION := Version(1, 518, 3)

  // ----- what the probe prints -----

  /** `_VERSION_OUTPUT_LIMIT_BYTES` */
  const OUTPUT_LIMIT: nat := 256

  /** `raw_output.decode("ascii")` */
  function DecodeAscii(raw: seq<Byte>): Option<string> {
    if raw == [] then Some("")
    else if raw[0] >= 0x80 then None
    else
      var rest := DecodeAscii(raw[1..]);
      if rest.None? then None else Some([raw[0] as int as char] + rest.value)
  }

  predicate EndsWith(s: string, e: string) {
    |s| >= |e| && s[|s| - |e|..] == e
  }

  function WithoutLineEnd(s: string): string {
    if EndsWith(s, "\r\n") then s[..|s| - 2] else if EndsWith(s, "\n") then s[..|s| - 1] else s
  }

  /** `_probe_binary_version` on what the probe has read. */
  function ParseOutput(raw: seq<Byte>): Result<Version, Rejection> {
    if |raw| > OUTPUT_LIMIT then Failure(OutputTooLong)
    else
      match DecodeAscii(raw)
      case None => Failure(NotAVersion)
      case Some(text) =>
        var v := Parse(WithoutLineEnd(text));
        if v.None? then Failure(NotAVersion) else Success(v.value)
  }

  predicate IsAscii(s: string) {
    forall i :: 0 <= i < |s| ==> s[i] as int < 0x80
  }

  lemma {:induction false} DecodedEncodes(raw: seq<Byte>)
    ensures DecodeAscii(raw).Some? ==> Encode(DecodeAscii(raw).value) == raw
  {
    if raw != [] && DecodeAscii(raw).Some? {
      DecodedEncodes(raw[1..]);
      assert DecodeAscii(raw).value[1..] == DecodeAscii(raw[1..]).value;
    }
  }

  lemma {:induction false} EncodedDecodes(s: string)
    requires IsAscii(s)
    ensures DecodeAscii(Encode(s)) == Some(s)
  {
    if s != "" {
      EncodedDecodes(s[1..]);
      assert s[0] as int < 0x80;
      assert Encode(s) == [s[0] as int as Byte] + Encode(s[1..]);
      assert Encode(s)[1..] == Encode(s[1..]);
      assert [s[0]] + s[1..] == s;
    }
  }

  /** A printed version is ASCII and holds no line end. */
  lemma FormatIsPlain(v: Version)
    ensures IsAscii(Format(v)) && forall i :: 0 <= i < |Format(v)| ==> Format(v)[i] != '\n' && Format(v)[i] != '\r'
  {
    PrintedIsNumeral(v.major);
    PrintedIsNumeral(v.minor);
    PrintedIsNumeral(v.patch);
    var a, b, c := PrintNat(v.major), PrintNat(v.minor), PrintNat(v.patch);
    forall i | 0 <= i < |Format(v)| ensures IsDigit(Format(v)[i]) || Format(v)[i] == '.' {
      hide PrintNat, ReadNat;
      assert i < |a| ==> Format(v)[i] == a[i];
      assert |a| < i <= |a| + |b| ==> Format(v)[i] == b[i - |a| - 1];
      assert |a| + |b| + 1 < i ==> Format(v)[i] == c[i - |a| - |b| - 2];
    }
  }

  lemma LineEndCut(s: string)
    requires forall i :: 0 <= i < |s| ==> s[i] != '\n' && s[i] != '\r'
    ensures WithoutLineEnd(s) == s && WithoutLineEnd(s + "\n") == s && WithoutLineEnd(s + "\r\n") == s
  {
    assert (s + "\r\n")[|s|..] == "\r\n";
    assert (s + "\n")[|s|..] == "\n";
    if |s| > 0 {
      assert (s + "\n")[|s| - 1] == s[|s| - 1];
      assert s[|s| - 1..] == [s[|s| - 1]];
    }
    if |s| > 1 { assert s[|s| - 2..][1] == s[|s| - 1]; }
    if |s| > 0 { assert (s + "\n")[|s| - 1..][0] == s[|s| - 1]; }
  }

  lemma LineEndForms(s: string)
    ensures var t := WithoutLineEnd(s); s == t || s == t + "\n" || s == t + "\r\n"
  {
  }

  /**
   The probe's output is taken as a version if and only if, within the limit, it is the printed version
   in ASCII, alone or with one line end after it.
   */
  lemma AcceptedOutputs(raw: seq<Byte>, v: Version)
    ensures ParseOutput(raw) == Success(v) <==>
      && |raw| <= OUTPUT_LIMIT
      && (raw == Encode(Format(v)) || raw == Encode(Format(v) + "\n") || raw == Encode(Format(v) + "\r\n"))
  {
    var text := Format(v);
    FormatIsPlain(v);
    LineEndCut(text);
    ParseFormat(v);
    EncodedDecodes(text);
    EncodedDecodes(text + "\n");
    EncodedDecodes(text + "\r\n");
    DecodedEncodes(raw);
    if DecodeAscii(raw).Some? {
      LineEndForms(DecodeAscii(raw).value);
      FormatParse(WithoutLineEnd(DecodeAscii(raw).value));
    }
    hide Format, Parse, Encode, DecodeAscii, WithoutLineEnd;
  }

  // ----- order -----

  /** Python's order of strings, by code points. */
  predicate PathBelow(a: string, b: string) {
    a == "" || (b != "" && (a[0] < b[0] || (a[0] == b[0] && PathBelow(a[1..], b[1..]))))
  }

  lemma {:induction false} PathTotal(a: string, b: string)
    ensures PathBelow(a, b) || PathBelow(b, a)
    ensures PathBelow(a, b) && PathBelow(b, a) ==> a == b
    ensures PathBelow(a, a)
  {
    if a != "" {
      PathTotal(a[1..], a[1..]);
      if b != "" {
        PathTotal(a[1..], b[1..]);
        assert a == [a[0]] + a[1..] && b == [b[0]] + b[1..];
      }
    }
  }

  lemma {:induction false} PathTransitive(a: string, b: string, c: string)
    requires PathBelow(a, b) && PathBelow(b, c)
    ensures PathBelow(a, c)
  {
    if a != "" && a[0] == b[0] && b[0] == c[0] { PathTransitive(a[1..], b[1..], c[1..]); }
  }

  predicate NotNewer(v: Version, w: Version) {
    v.major < w.major || (v.major == w.major && (v.minor < w.minor || (v.minor == w.minor && v.patch <= w.patch)))
  }

  // ----- admission and selection -----

  /** `BinaryAdmission` */
  datatype Admission = Admission(path: string, version: Version)

  /** Why a candidate is rejected. */
  datatype Rejection =
    | InvalidPath | NotExecutable | ProbeFailed | OutputTooLong | NotAVersion
    | BelowMinimum(version: Version)

  /**
   What the operating system answers: the canonical form of a path, whether it is an executable file,
   and the bytes that its `--version` prints unless the probe fails or times out.
   */
  datatype Host = Host(
    canonical: string -> Option<string>,
    executable: string -> bool,
    printed: string -> Option<seq<Byte>>)

  /** `_inspect_binary` */
  function Inspect(host: Host, path: string): Result<Admission, Rejection> {
    match host.canonical(path)
    case None => Failure(InvalidPath)
    case Some(resolved) =>
      if !host.executable(resolved) then Failure(NotExecutable) else
      match host.printed(resolved)
      case None => Failure(ProbeFailed)
      case Some(raw) =>
        match ParseOutput(raw)
        case Failure(e) => Failure(e)
        case Success(v) =>
          if NotNewer(MIN_VERSION, v) then Success(Admission(resolved, v)) else Failure(BelowMinimum(v))
  }

  /** The order of `min`: the newer version first, then the smaller path. */
  predicate Before(a: Admission, b: Admission) {
    if a.version == b.version then PathBelow(a.path, b.path) else NotNewer(b.version, a.version)
  }

  lemma BeforeOrders(a: Admission, b: Admission, c: Admission)
    ensures Before(a, a)
    ensures Before(a, b) || Before(b, a)
    ensures Before(a, b) && Before(b, a) ==> a == b
    ensures Before(a, b) && Before(b, c) ==> Before(a, c)
  {
    PathTotal(a.path, b.path);
    PathTotal(a.path, a.path);
    if a.version == b.version == c.version && Before(a, b) && Before(b, c) { PathTransitive(a.path, b.path, c.path); }
  }

  function Canonical(host: Host, candidates: seq<string>): set<string> {
    set c | c in candidates && host.canonical(c).Some? :: host.canonical(c).value
  }

  predicate Admits(host: Host, paths: set<string>, a: Admission) {
    exists p :: p in paths && Inspect(host, p) == Success(a)
  }

  /**
   What a selection has to be: the first of the admitted binaries; without one, the reasons of all
   the rejections if the caller asked for them and there was anything to reject, or nothing.
   */
  predicate Selected(host: Host, paths: set<string>, failIfRejected: bool, r: Result<Option<Admission>,
    set<Rejection>>) {
    match r
    case Success(Some(best)) =>
      Admits(host, paths, best) && forall p :: p in paths && Inspect(host, p).Success? ==>
        Before(best, Inspect(host, p).value)
    case Success(None) =>
      (forall p :: p in paths ==> Inspect(host, p).Failure?) && (paths == {} || !failIfRejected)
    case Failure(reasons) =>
      && paths != {} && failIfRejected
      && (forall p :: p in paths ==> Inspect(host, p).Failure?)
      && reasons == set p | p in paths :: Inspect(host, p).error
  }

  lemma SmallestPath(paths: set<string>) returns (least: string)
    requires paths != {}
    ensures least in paths && forall p :: p in paths ==> PathBelow(least, p)
    decreases |paths|
  {
    least :| least in paths;
    PathTotal(least, least);
    var rest := paths - {least};
    if rest != {} {
      var other := SmallestPath(rest);
      PathTotal(least, other);
      if PathBelow(least, other) {
        forall p | p in paths ensures PathBelow(least, p) {
          if p != least { PathTransitive(least, other, p); }
        }
      } else {
        least := other;
      }
    }
  }

  /** `_select_best_binary`: canonicalize, inspect in the order of the paths, and take the minimum. */
  method SelectBest(host: Host, candidates: seq<string>, failIfRejected: bool)
    returns (r: Result<Option<Admission>, set<Rejection>>)
    ensures Selected(host, Canonical(host, candidates), failIfRejected, r)
  {
    hide PathBelow, Before, Inspect, Considered, Selected;
    var canonicalPaths: set<string> := {};
    for i := 0 to |candidates|
      invariant canonicalPaths == Canonical(host, candidates[..i])
    {
      assert candidates[..i + 1] == candidates[..i] + [candidates[i]];
      if host.canonical(candidates[i]).Some? {
        canonicalPaths := canonicalPaths + {host.canonical(candidates[i]).value};
      }
    }
    assert candidates[..|candidates|] == candidates;
    var best: Option<Admission> := None;
    var reasons: set<Rejection> := {};
    var remaining := canonicalPaths;
    NothingConsidered(host);
    assert canonicalPaths - remaining == {};
    while remaining != {}
      invariant remaining <= canonicalPaths
      invariant Considered(host, canonicalPaths - remaining, best, reasons)
      decreases |remaining|
    {
      ghost var least := SmallestPath(remaining);
      var path :| path in remaining && forall p :: p in remaining ==> PathBelow(path, p);
      ghost var done := canonicalPaths - remaining;
      remaining := remaining - {path};
      assert canonicalPaths - remaining == done + {path};
      ConsiderOne(host, done, path, best, reasons);
      match Inspect(host, path) {
        case Success(a) =>
          if best.None? || !Before(best.value, a) {
            best := Some(a);
          }
        case Failure(e) => reasons := reasons + {e};
      }
    }
    assert canonicalPaths - remaining == canonicalPaths;
    AllConsidered(host, canonicalPaths, best, reasons, failIfRejected);
    if best.None? && canonicalPaths != {} && failIfRejected {
      return Failure(reasons);
    }
    r := Success(best);
  }

  /** What is known of the paths inspected so far. */
  predicate Considered(host: Host, done: set<string>, best: Option<Admission>, reasons: set<Rejection>) {
    && (best.Some? ==> Admits(host, done, best.value))
    && (forall p :: p in done && Inspect(host, p).Success? ==> best.Some? && Before(best.value, Inspect(host, p).value))
    && reasons == set p | p in done && Inspect(host, p).Failure? :: Inspect(host, p).error
  }

  lemma NothingConsidered(host: Host)
    ensures Considered(host, {}, None, {})
  {
  }

  lemma AllConsidered(host: Host, paths: set<string>, best: Option<Admission>, reasons: set<Rejection>,
    failIfRejected: bool)
    requires Considered(host, paths, best, reasons)
    ensures Selected(host, paths, failIfRejected,
      if best.None? && paths != {} && failIfRejected then Failure(reasons) else Success(best))
  {
    hide Inspect;
  }

  lemma ConsiderOne(host: Host, done: set<string>, path: string, best: Option<Admission>, reasons: set<Rejection>)
    requires Considered(host, done, best, reasons)
    ensures match Inspect(host, path)
      case Success(a) =>
        Considered(host, done + {path}, if best.None? || !Before(best.value, a) then Some(a) else best, reasons)
      case Failure(e) => Considered(host, done + {path}, best, reasons + {e})
  {
    hide Inspect;
    match Inspect(host, path)
    case Success(a) =>
      if best.None? || !Before(best.value, a) { Replace(host, done, best, a); }
      assert path in done + {path};
      if best.Some? { assert Admits(host, done + {path}, best.value); }
    case Failure(e) =>
      if best.Some? { assert Admits(host, done + {path}, best.value); }
  }

  lemma Replace(host: Host, done: set<string>, best: Option<Admission>, a: Admission)
    requires best.None? || !Before(best.value, a)
    requires forall p :: p in done && Inspect(host, p).Success? ==>
      best.Some? && Before(best.value, Inspect(host, p).value)
    ensures Before(a, a)
    ensures forall p :: p in done && Inspect(host, p).Success? ==> Before(a, Inspect(host, p).value)
  {
    BeforeOrders(a, a, a);
    forall p | p in done && Inspect(host, p).Success? ensures Before(a, Inspect(host, p).value) {
      BeforeOrders(best.value, a, a);
      BeforeOrders(a, best.value, Inspect(host, p).value);
    }
  }

  /**
   The selection depends on nothing but which canonical paths the candidates have: not on their
   order or repetition.
   */
  lemma SelectionIsUnique(host: Host, first: seq<string>, second: seq<string>, failIfRejected: bool,
                          r: Result<Option<Admission>, set<Rejection>>, q: Result<Option<Admission>, set<Rejection>>)
    requires Canonical(host, first) == Canonical(host, second)
    requires Selected(host, Canonical(host, first), failIfRejected, r)
    requires Selected(host, Canonical(host, second), failIfRejected, q)
    ensures r == q
  {
    if r.Success? && r.value.Some? && q.Success? && q.value.Some? {
      BeforeOrders(r.value.value, q.value.value, q.value.value);
    }
  }

  /** The selected binary is admitted, no older than the minimum, and no admitted binary is newer. */
  lemma SelectedIsHighest(host: Host, candidates: seq<string>, failIfRejected: bool, best: Admission, c: string)
    requires Selected(host, Canonical(host, candidates), failIfRejected, Success(Some(best)))
    requires c in candidates && host.canonical(c).Some? && Inspect(host, host.canonical(c).value).Success?
    ensures var other := Inspect(host, host.canonical(c).value).value;
      && NotNewer(MIN_VERSION, best.version)
      && NotNewer(other.version, best.version)
      && (other.version == best.version ==> PathBelow(best.path, other.path))
  {
    assert host.canonical(c).value in Canonical(host, candidates);
  }

  // ----- the orders, spelled out -----

  /** Versions are ordered by major, then minor, then patch number. */
  predicate Older(v: Version, w: Version) {
    if v.major != w.major then v.major < w.major
    else if v.minor != w.minor then v.minor < w.minor
    else v.patch < w.patch
  }

  /** One path is smaller if it is a prefix, or has the smaller character where the two first differ. */
  ghost predicate Smaller(a: string, b: string) {
    a <= b || exists i :: 0 <= i < |a| && i < |b| && a[..i] == b[..i] && a[i] < b[i]
  }

  lemma {:induction false} PathOrder(a: string, b: string)
    ensures PathBelow(a, b) <==> Smaller(a, b)
  {
    if a != "" && b != "" {
      PathOrder(a[1..], b[1..]);
      if a[0] == b[0] {
        if a[1..] <= b[1..] { assert a <= b; }
        if i :| 0 <= i < |a[1..]| && i < |b[1..]| && a[1..][..i] == b[1..][..i] && a[1..][i] < b[1..][i] {
          assert a[..i + 1] == [a[0]] + a[1..][..i] && b[..i + 1] == [b[0]] + b[1..][..i];
          assert a[i + 1] < b[i + 1];
        }
        if i :| 0 <= i < |a| && i < |b| && a[..i] == b[..i] && a[i] < b[i] {
          assert i > 0;
          assert a[1..][..i - 1] == a[..i][1..] && b[1..][..i - 1] == b[..i][1..];
          assert a[1..][i - 1] < b[1..][i - 1];
        }
      } else if a[0] < b[0] {
        assert a[..0] == b[..0];
      } else if i :| 0 <= i < |a| && i < |b| && a[..i] == b[..i] && a[i] < b[i] {
        assert i > 0 ==> a[..i][0] == b[..i][0];
      }
    }
  }

  /**
   A binary is admitted if and only if its path resolves to an executable file that prints a version, in one of the
   forms that are taken, of at least 1.518.3.
   */
  lemma AdmittedExactly(host: Host, path: string, a: Admission)
    ensures Inspect(host, path) == Success(a) <==>
      && host.canonical(path) == Some(a.path)
      && host.executable(a.path)
      && host.printed(a.path).Some?
      && ParseOutput(host.printed(a.path).value) == Success(a.version)
      && !Older(a.version, Version(1, 518, 3))
  {
    hide ParseOutput;
  }

  /** The selected binary by the two orders: no admitted one is newer, and of its version none has a smaller path. */
  lemma SelectedInOrder(host: Host, candidates: seq<string>, failIfRejected: bool, best: Admission, c: string)
    requires Selected(host, Canonical(host, candidates), failIfRejected, Success(Some(best)))
    requires c in candidates && host.canonical(c).Some? && Inspect(host, host.canonical(c).value).Success?
    ensures var other := Inspect(host, host.canonical(c).value).value;
      && !Older(best.version, other.version)
      && !Older(best.version, Version(1, 518, 3))
      && (other.version == best.version ==> Smaller(best.path, other.path))
  {
    hide Inspect, Smaller, PathBelow;
    SelectedIsHighest(host, candidates, failIfRejected, best, c);
    PathOrder(best.path, Inspect(host, host.canonical(c).value).value.path);
  }
}
