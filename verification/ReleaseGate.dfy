/** The release gate (scripts/release_gate/release_verdict.py): which version bump a change
    needs, how two listings of the public API compare, and what a chain of passed releases
    promises. */
module ReleaseGate {
  import opened Wrappers
  import Strings

  datatype Version = Version(major: nat, minor: nat, patch: nat)

  predicate Less(a: Version, b: Version) {
    a.major < b.major
    || (a.major == b.major && (a.minor < b.minor || (a.minor == b.minor && a.patch < b.patch)))
  }

  datatype Bump = Major | Minor | Patch | NoBump

  function BumpKind(was: Version, now: Version): Bump {
    if !Less(was, now) then NoBump
    else if now.major > was.major then Major
    else if now.minor > was.minor then Minor
    else Patch
  }

  predicate IsBreakingBump(was: Version, now: Version) {
    Less(was, now)
    && (if was.major == 0 then now.major > 0 || now.minor > was.minor else now.major > was.major)
  }

  function SmallestBreakingBump(was: Version): Version {
    if was.major == 0 then Version(0, was.minor + 1, 0) else Version(was.major + 1, 0, 0)
  }

  /** The version the gate asks for is itself a breaking bump, and the breaking bumps are
      exactly the versions from it upwards. */
  lemma SmallestIsLeast(was: Version, now: Version)
    ensures IsBreakingBump(was, now) <==> !Less(now, SmallestBreakingBump(was))
    ensures IsBreakingBump(was, SmallestBreakingBump(was))
  {
    if was.major == 0 {
      assert SmallestBreakingBump(was).major == 0;
    }
  }

  // The versions of one compatible line agree in the breaking digit.
  predicate SameLine(a: Version, b: Version) {
    a.major == b.major && (a.major == 0 ==> a.minor == b.minor)
  }

  /** A bump is breaking exactly when it leaves the line. */
  lemma BreakingLeavesTheLine(was: Version, now: Version)
    requires Less(was, now)
    ensures IsBreakingBump(was, now) <==> !SameLine(was, now)
    ensures BumpKind(was, now) == Major ==> IsBreakingBump(was, now)
    ensures BumpKind(was, now) == Minor ==> (IsBreakingBump(was, now) <==> was.major == 0)
    ensures BumpKind(was, now) == Patch ==> !IsBreakingBump(was, now)
  {
    match BumpKind(was, now)
    case Major => assert now.major > was.major;
    case Minor => assert now.major == was.major;
    case Patch => assert now.major == was.major;
    case NoBump =>
  }

  // --- the public API ------------------------------------------------------------------

  // What Python's strip cuts: the separators of Unicode, and four control characters.
  predicate Blank(line: string) {
    forall c :: c in line ==> Strings.IsSpace(c) || '\U{1C}' <= c <= '\U{1F}'
  }

  function NonBlank(lines: seq<string>): multiset<string> {
    if lines == [] then multiset{}
    else
      var n := |lines| - 1;
      NonBlank(lines[..n]) + (if Blank(lines[n]) then multiset{} else multiset{lines[n]})
  }

  // The listing as a multiset of its lines.
  function SurfaceLines(text: string): multiset<string> { NonBlank(Strings.Split(text, '\n')) }

  lemma NonBlankOne(line: string)
    ensures NonBlank([line]) == if Blank(line) then multiset{} else multiset{line}
  {
    var lines := [line];
    assert lines[..|lines| - 1] == [];
  }

  datatype ApiVerdict = NoBaseline | NotGraded | ApiBreaking | Additive | Unchanged

  // What the comparison found: the verdict, the lines removed and how many were added.
  datatype Grade = Grade(verdict: ApiVerdict, removed: multiset<string>, added: nat)

  function GradeSurface(published: Option<string>, branch: string): Grade {
    if published.None? then Grade(NoBaseline, multiset{}, 0)
    else
      var was, now := SurfaceLines(published.value), SurfaceLines(branch);
      var removed, added := was - now, |now - was|;
      if removed != multiset{} then Grade(ApiBreaking, removed, added)
      else Grade(if added > 0 then Additive else Unchanged, multiset{}, added)
  }

  /** The verdict is the order of the two listings: breaking when a line was lost, unchanged
      when they are equal, additive when lines were only gained. */
  lemma VerdictIsInclusion(published: string, branch: string)
    ensures var was, now, g := SurfaceLines(published), SurfaceLines(branch), GradeSurface(Some(published), branch);
            && (g.verdict == ApiBreaking <==> !(was <= now))
            && (g.verdict == Unchanged <==> was == now)
            && (g.verdict == Additive <==> was < now)
            && was + (now - was) == now + g.removed
            && |was| + g.added == |now| + |g.removed|
  {
    hide SurfaceLines;
    var was, now := SurfaceLines(published), SurfaceLines(branch);
    assert was - now == multiset{} <==> was <= now by { NothingLost(was, now); }
    assert now - was == multiset{} <==> now <= was by { NothingLost(now, was); }
    assert |now - was| == 0 <==> now - was == multiset{};
  }

  lemma NothingLost(a: multiset<string>, b: multiset<string>)
    ensures a - b == multiset{} <==> a <= b
  {
    if a - b == multiset{} {
      forall x ensures a[x] <= b[x] {
        assert (a - b)[x] == 0;
      }
    }
  }

  // --- the verdict ---------------------------------------------------------------------

  datatype SpecVerdict = SpecUnchanged | SpecAdditive | SpecBreaking | Unclassified

  datatype Outcome = Pass | Fail | CouldNotClassify

  function Decide(published: Version, proposed: Version, spec: SpecVerdict, api: ApiVerdict): Outcome {
    if spec == Unclassified then CouldNotClassify
    else if BumpKind(published, proposed) == NoBump then Fail
    else if (spec == SpecBreaking || api == ApiBreaking) && !IsBreakingBump(published, proposed) then Fail
    else Pass
  }

  /** A release passes exactly when it was classified, is above the published version, and,
      if anything broke, is at least the version the failure message would ask for. */
  lemma PassMeans(published: Version, proposed: Version, spec: SpecVerdict, api: ApiVerdict)
    ensures Decide(published, proposed, spec, api) == Pass <==>
            && spec != Unclassified && Less(published, proposed)
            && (spec == SpecBreaking || api == ApiBreaking ==> !Less(proposed, SmallestBreakingBump(published)))
    ensures Decide(published, proposed, spec, api) == CouldNotClassify <==> spec == Unclassified
  {
    SmallestIsLeast(published, proposed);
  }

  // A release as published: its version, its API listing, and how the spec had changed.
  datatype Release = Release(version: Version, listing: string, spec: SpecVerdict)

  // The release `next` passed the gate against `last`, its API graded.
  predicate Passed(last: Release, next: Release) {
    Decide(last.version, next.version, next.spec, GradeSurface(Some(last.listing), next.listing).verdict) == Pass
  }

  predicate Chain(rs: seq<Release>) { forall i :: 0 < i < |rs| ==> Passed(rs[i - 1], rs[i]) }

  lemma {:induction false} VersionsRise(rs: seq<Release>)
    requires rs != [] && Chain(rs)
    ensures rs[0] == rs[|rs| - 1] || Less(rs[0].version, rs[|rs| - 1].version)
  {
    hide SurfaceLines, GradeSurface;
    if |rs| > 1 {
      var n := |rs| - 1;
      VersionsRise(rs[..n]);
      assert Passed(rs[n - 1], rs[n]);
    }
  }

  lemma StepStaysOnLine(first: Version, before: Version, last: Version)
    requires first == before || Less(first, before)
    requires Less(before, last) && SameLine(first, last)
    ensures SameLine(first, before) && SameLine(before, last)
  {
  }

  lemma StepKeepsLines(before: Release, after: Release)
    requires Passed(before, after) && SameLine(before.version, after.version)
    ensures SurfaceLines(before.listing) <= SurfaceLines(after.listing) && after.spec != SpecBreaking
  {
    hide SurfaceLines, Less, SameLine, IsBreakingBump, GradeSurface;
    PassMeans(before.version, after.version, after.spec, GradeSurface(Some(before.listing), after.listing).verdict);
    BreakingLeavesTheLine(before.version, after.version);
    VerdictIsInclusion(before.listing, after.listing);
  }

  /** Along any chain of passed releases, if the last is on the line of the first then no
      step broke the spec and everything the first one listed is still listed by the last. */
  lemma {:induction false} ChainsAreCompatible(rs: seq<Release>)
    requires rs != [] && Chain(rs) && SameLine(rs[0].version, rs[|rs| - 1].version)
    ensures SurfaceLines(rs[0].listing) <= SurfaceLines(rs[|rs| - 1].listing)
    ensures forall i :: 0 < i < |rs| ==> rs[i].spec != SpecBreaking
  {
    hide SurfaceLines;
    if |rs| > 1 {
      var n := |rs| - 1;
      var before := rs[..n];
      assert Passed(rs[n - 1], rs[n]);
      VersionsRise(before);
      PassMeans(rs[n - 1].version, rs[n].version, rs[n].spec, GradeSurface(Some(rs[n - 1].listing), rs[n].listing).verdict);
      hide Passed;
      StepStaysOnLine(rs[0].version, rs[n - 1].version, rs[n].version);
      StepKeepsLines(rs[n - 1], rs[n]);
      hide SameLine, Less;
      ChainsAreCompatible(before);
      assert forall i :: 0 < i < n ==> before[i] == rs[i];
    }
  }

  /** The API must have been graded: a release nobody graded may drop a line in a patch. */
  lemma UngradedMayBreak(v: Version, line: string)
    requires !Blank(line) && '\n' !in line
    ensures Decide(v, v.(patch := v.patch + 1), SpecUnchanged, NotGraded) == Pass
    ensures Decide(v, v.(patch := v.patch + 1), SpecUnchanged, GradeSurface(Some(line), "").verdict) == Fail
  {
    Strings.SplitWhole(line, '\n');
    Strings.SplitWhole("", '\n');
    NonBlankOne(line);
    NonBlankOne("");
    VerdictIsInclusion(line, "");
  }

  lemma {:induction false} NonBlankAppend(a: seq<string>, b: seq<string>)
    ensures NonBlank(a + b) == NonBlank(a) + NonBlank(b)
  {
    hide Blank;
    if b == [] {
      assert a + b == a;
    } else {
      var n := |b| - 1;
      NonBlankAppend(a, b[..n]);
      assert (a + b)[..|a + b| - 1] == a + b[..n];
      NonBlankLast(a + b);
      NonBlankLast(b);
      hide NonBlank;
      Regroup(NonBlank(a), NonBlank(b[..n]), if Blank(b[n]) then multiset{} else multiset{b[n]});
    }
  }

  lemma NonBlankLast(lines: seq<string>)
    requires lines != []
    ensures var n := |lines| - 1; NonBlank(lines) == NonBlank(lines[..n]) + (if Blank(lines[n]) then multiset{} else multiset{lines[n]})
  {
    hide Blank;
  }

  lemma Regroup(a: multiset<string>, b: multiset<string>, c: multiset<string>)
    ensures a + (b + c) == (a + b) + c
  {
  }

  /** A listing is taken line by line: two listings one below the other have the lines of both,
      and a single line is one entry, unless it is blank. */
  lemma ListingIsLines(a: string, b: string)
    ensures SurfaceLines(a + "\n" + b) == SurfaceLines(a) + SurfaceLines(b)
    ensures '\n' !in a ==>
              SurfaceLines(a) == if forall c :: c in a ==> c in Strings.SPACES + "\U{1C}\U{1D}\U{1E}\U{1F}"
                                 then multiset{} else multiset{a}
  {
    assert a + "\n" + b == a + ['\n'] + b;
    Strings.SplitJoins(a, '\n', b);
    NonBlankAppend(Strings.Split(a, '\n'), Strings.Split(b, '\n'));
    if '\n' !in a {
      Strings.SplitWhole(a, '\n');
      NonBlankOne(a);
      BlankMeans(a);
    }
  }

  lemma BlankMeans(line: string)
    ensures Blank(line) <==> forall c :: c in line ==> c in Strings.SPACES + "\U{1C}\U{1D}\U{1E}\U{1F}"
  {
    forall c | c in line
      ensures (Strings.IsSpace(c) || '\U{1C}' <= c <= '\U{1F}') <==> c in Strings.SPACES + "\U{1C}\U{1D}\U{1E}\U{1F}"
    {
      Strings.SpacesAre(c);
      var four := "\U{1C}\U{1D}\U{1E}\U{1F}";
      assert c in four <==> '\U{1C}' <= c <= '\U{1F}';
    }
    hide Strings.IsSpace, Strings.SPACES;
  }

  /** A release with nothing published to compare with is graded by its spec alone. */
  lemma NothingToCompare(published: Version, proposed: Version, spec: SpecVerdict, branch: string)
    ensures GradeSurface(None, branch).verdict == NoBaseline
    ensures spec in {SpecUnchanged, SpecAdditive} && Less(published, proposed) ==>
              Decide(published, proposed, spec, GradeSurface(None, branch).verdict) == Pass
  {
  }
}
