/** The device side of a run: the run modes, the classes of connected
    devices, System.Version as the device lookup parses and orders it, and
    the choice among several applicable devices. */
module Hardware {
  import opened Common
  import opened Text

  /** RunMode. The device lookup knows three modes; any other value is kept
      as is. */
  datatype RunMode = iOS | TvOS | WatchOS | UnlistedMode(value: int)

  /** DeviceClass of a connected device. */
  datatype DeviceClass = UnknownClass | iPhone | iPad | iPod | Watch | AppleTV

  /** A connected device as the device loader reports it. A null
      IsUsableForDebugging (unknown) is None; so is a null ProductVersion. */
  datatype Device = Device(
    name: string,
    deviceClass: DeviceClass,
    usableForDebugging: Option<bool>,
    productVersion: Option<string>)

  /** The device classes a run mode may use; any other mode is an
      ArgumentException. */
  function DeviceClasses(mode: RunMode): Result<seq<DeviceClass>> {
    match mode
    case iOS => Ok([iPhone, iPad, iPod])
    case WatchOS => Ok([Watch])
    case TvOS => Ok([AppleTV])
    case UnlistedMode(_) => Err(ArgumentException)
  }

  /** The filter of the lookup: a class of the mode, and not known to be
      unusable for debugging (unknown counts as usable). */
  predicate Applicable(d: Device, classes: seq<DeviceClass>) {
    d.deviceClass in classes && d.usableForDebugging != Some(false)
  }

  /** `devices.Where(Applicable)`: the applicable devices, in their order. */
  function Candidates(devices: seq<Device>, classes: seq<DeviceClass>): (r: seq<Device>)
    ensures |r| <= |devices|
    ensures forall d :: d in r <==> d in devices && Applicable(d, classes)
  {
    if devices == [] then []
    else (if Applicable(devices[0], classes) then [devices[0]] else []) + Candidates(devices[1..], classes)
  }

  /** System.Version: major, minor, build and revision, a missing build or
      revision being -1. */
  datatype Version = Version(major: int, minor: int, build: int, revision: int)

  /** `new Version()`, the key of a device whose version does not parse. */
  const Unversioned := Version(0, 0, -1, -1)

  /** Version.CompareTo: component by component. */
  predicate VersionLess(a: Version, b: Version) {
    || a.major < b.major
    || (a.major == b.major && a.minor < b.minor)
    || (a.major == b.major && a.minor == b.minor && a.build < b.build)
    || (a.major == b.major && a.minor == b.minor && a.build == b.build && a.revision < b.revision)
  }

  const MaxInt32 := 0x7fff_ffff

  /** A component Version.TryParse accepts: decimal digits whose value fits
      an Int32. */
  predicate ValidComponent(s: string) {
    s != [] && AllDigits(s) && DigitsValue(s) <= MaxInt32
  }

  /** What Version.TryParse can produce. */
  predicate WellFormed(v: Version) {
    v.major >= 0 && v.minor >= 0 && v.build >= -1 && v.revision >= -1
  }

  /** `Version.TryParse`: two to four components separated by '.'. */
  function ParseVersion(s: Option<string>): (r: Option<Version>)
    ensures r.Some? ==> WellFormed(r.value)
    ensures r.Some? <==>
      s.Some? && 2 <= |Split(s.value, '.')| <= 4
      && forall i :: 0 <= i < |Split(s.value, '.')| ==> ValidComponent(Split(s.value, '.')[i])
  {
    if s.None? then None
    else
      var parts := Split(s.value, '.');
      if |parts| < 2 || |parts| > 4 || !(forall i :: 0 <= i < |parts| ==> ValidComponent(parts[i])) then None
      else Some(Version(
        DigitsValue(parts[0]),
        DigitsValue(parts[1]),
        if |parts| > 2 then DigitsValue(parts[2]) else -1,
        if |parts| > 3 then DigitsValue(parts[3]) else -1))
  }

  /** The ordering key of the lookup: the parsed version, or `new Version()`. */
  function SortKey(d: Device): Version {
    ParseVersion(d.productVersion).GetOr(Unversioned)
  }

  /** `OrderBy(SortKey).First()`: OrderBy is a stable sort, so the first
      device is the earliest one among those with the lowest key. */
  function FirstLowest(ds: seq<Device>): (i: nat)
    requires ds != []
    ensures i < |ds|
    ensures forall j :: 0 <= j < |ds| ==> !VersionLess(SortKey(ds[j]), SortKey(ds[i]))
    ensures forall j :: 0 <= j < i ==> VersionLess(SortKey(ds[i]), SortKey(ds[j]))
  {
    if |ds| == 1 then 0
    else
      var k := 1 + FirstLowest(ds[1..]);
      if VersionLess(SortKey(ds[k]), SortKey(ds[0])) then k else 0
  }

  /** The filter keeps the order of the devices: it distributes over
      concatenation. */
  lemma {:induction false} CandidatesConcat(a: seq<Device>, b: seq<Device>, classes: seq<DeviceClass>)
    ensures Candidates(a + b, classes) == Candidates(a, classes) + Candidates(b, classes)
  {
    if a == [] {
      assert a + b == b;
    } else {
      assert (a + b)[0] == a[0];
      assert (a + b)[1..] == a[1..] + b;
      CandidatesConcat(a[1..], b, classes);
    }
  }

  /** The version of an unparsable device is at or below every key. */
  lemma UnversionedIsLowest(d: Device)
    ensures !VersionLess(SortKey(d), Unversioned)
    ensures SortKey(d) == Unversioned ==> ParseVersion(d.productVersion).None? || ParseVersion(d.productVersion) == Some(Unversioned)
  {
  }

  /** Among several devices, one whose version does not parse is chosen over
      every device with a parsed version, unless some device reports the
      version "0.0" itself: the chosen device is the first unparsable one. */
  lemma UnparsableChosen(ds: seq<Device>, u: nat)
    requires u < |ds| && ParseVersion(ds[u].productVersion).None?
    requires forall j :: 0 <= j < |ds| ==> ParseVersion(ds[j].productVersion) != Some(Unversioned)
    ensures ParseVersion(ds[FirstLowest(ds)].productVersion).None?
    ensures forall j :: 0 <= j < FirstLowest(ds) ==> ParseVersion(ds[j].productVersion).Some?
  {
    var i := FirstLowest(ds);
    assert !VersionLess(SortKey(ds[u]), SortKey(ds[i]));
    UnversionedIsLowest(ds[i]);
    assert SortKey(ds[i]) == Unversioned;
    forall j | 0 <= j < i ensures ParseVersion(ds[j].productVersion).Some? {
      assert VersionLess(SortKey(ds[i]), SortKey(ds[j]));
    }
  }

  /** "a.b" with two valid components parses to a version with undefined
      build and revision. */
  lemma ParseTwoComponents(s: string, a: string, b: string)
    requires ValidComponent(a) && ValidComponent(b)
    requires s == a + "." + b
    ensures ParseVersion(Some(s)) == Some(Version(DigitsValue(a), DigitsValue(b), -1, -1))
  {
    DigitsHaveNoDot(a);
    DigitsHaveNoDot(b);
    var rest := ['.'] + b;
    assert s == a + rest;
    SplitAfterSeparator(b, '.');
    SplitAfterPrefix(a, rest, '.');
    assert a + "" == a;
    assert Split(s, '.') == [a, b];
  }

  /** Component `i` of a list of version components, or -1 when there is
      none, as System.Version reports a missing build or revision. */
  function ComponentOrMissing(parts: seq<string>, i: nat): int {
    if i < |parts| && AllDigits(parts[i]) then DigitsValue(parts[i]) else -1
  }

  /** Two to four valid components joined with '.' parse back to their
      values; a missing build or revision is -1. */
  lemma ParseComponents(parts: seq<string>)
    requires 2 <= |parts| <= 4
    requires forall i :: 0 <= i < |parts| ==> ValidComponent(parts[i])
    ensures ParseVersion(Some(Join(parts, '.'))) == Some(Version(
      ComponentOrMissing(parts, 0), ComponentOrMissing(parts, 1),
      ComponentOrMissing(parts, 2), ComponentOrMissing(parts, 3)))
  {
    forall i | 0 <= i < |parts| ensures '.' !in parts[i] {
      DigitsHaveNoDot(parts[i]);
    }
    SplitJoin(parts, '.');
  }

  lemma DigitsHaveNoDot(x: string)
    requires AllDigits(x)
    ensures '.' !in x
  {
    forall i | 0 <= i < |x| ensures x[i] != '.' { assert IsDigit(x[i]); }
  }

  /** A version text without '.' does not parse. */
  lemma ParseWithoutDot(s: string)
    requires '.' !in s
    ensures ParseVersion(Some(s)).None?
  {
    SplitWithoutSeparator(s, '.');
  }

  /** A version "m.0" with a non-zero major parses, to a version other than
      `new Version()`. */
  lemma ParsedAboveZero(s: string, m: string)
    requires ValidComponent(m) && DigitsValue(m) > 0
    requires s == m + ".0"
    ensures ParseVersion(Some(s)).Some? && ParseVersion(Some(s)) != Some(Unversioned)
  {
    assert ValidComponent("0") by { assert "0" == ['0']; }
    ParseTwoComponents(s, m, "0");
  }

  /** Three devices reporting "10.0", "9.0" and an unparsable version: the
      one with the unparsable version is chosen, not the one with "9.0".
      Here and in the two lemmas below, the version texts are parameters
      fixed by `requires` rather than literals in the body: the prover then
      unfolds each literal only where it is needed. */
  lemma TieBreakExample(ds: seq<Device>, v0: string, v1: string, v2: string)
    requires v0 == "10.0" && v1 == "9.0" && v2 == "unknown"
    requires |ds| == 3
    requires ds[0].productVersion == Some(v0)
    requires ds[1].productVersion == Some(v1)
    requires ds[2].productVersion == Some(v2)
    ensures FirstLowest(ds) == 2
  {
    ParsedTen(v0);
    ParsedNine(v1);
    assert '.' !in v2;
    ParseWithoutDot(v2);
    UnparsableChosen(ds, 2);
  }

  lemma ParsedTen(v: string)
    requires v == "10.0"
    ensures ParseVersion(Some(v)).Some? && ParseVersion(Some(v)) != Some(Unversioned)
  {
    assert v == "10" + ".0";
    assert DigitsValue("10") == 10 by { assert "10"[..1] == "1"; }
    ParsedAboveZero(v, "10");
  }

  lemma ParsedNine(v: string)
    requires v == "9.0"
    ensures ParseVersion(Some(v)).Some? && ParseVersion(Some(v)) != Some(Unversioned)
  {
    assert v == "9" + ".0";
    ParsedAboveZero(v, "9");
  }
}
