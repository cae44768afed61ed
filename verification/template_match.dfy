/** Comparing deployed contract code with a compiled template that has holes for immutable values. */
module TemplateMatch {
  import opened Options

  type Byte = bv8

  type Code = seq<Byte>

  datatype Range = Range(start: nat, length: nat)

  /** `runtime` is None when the artifact's hex does not parse. */
  datatype Artifact = Artifact(runtime: Option<Code>, ranges: seq<Range>, groups: seq<seq<Range>>)

  function Least(a: nat, b: nat): nat { if a < b then a else b }

  /** code[start:start + length], clamped as Python clamps a slice. */
  function Slice(code: Code, r: Range): Code {
    code[Least(r.start, |code|)..Least(r.start + r.length, |code|)]
  }

  /** code[start:start + length] = bytes(length): past the end, the assignment appends. */
  function Blank(code: Code, r: Range): Code {
    code[..Least(r.start, |code|)] + seq(r.length, _ => 0) + code[Least(r.start + r.length, |code|)..]
  }

  function Masked(code: Code, ranges: seq<Range>): Code {
    if ranges == [] then code else Blank(Masked(code, ranges[..|ranges| - 1]), ranges[|ranges| - 1])
  }

  method MaskedInPlace(code: Code, ranges: seq<Range>) returns (masked: Code)
    ensures masked == Masked(code, ranges)
  {
    masked := code;
    var i := 0;
    while i < |ranges|
      invariant 0 <= i <= |ranges| && masked == Masked(code, ranges[..i])
    {
      assert ranges[..i + 1][..i] == ranges[..i];
      masked := masked[..Least(ranges[i].start, |masked|)] + seq(ranges[i].length, _ => 0)
                + masked[Least(ranges[i].start + ranges[i].length, |masked|)..];
      i := i + 1;
    }
    assert ranges[..|ranges|] == ranges;
  }

  ghost predicate Covers(ranges: seq<Range>, i: int) {
    exists k :: 0 <= k < |ranges| && ranges[k].start <= i < ranges[k].start + ranges[k].length
  }

  ghost predicate InBounds(ranges: seq<Range>, n: nat) {
    forall r :: r in ranges ==> r.start + r.length <= n
  }

  lemma CoversOneMore(ranges: seq<Range>, i: int)
    requires ranges != []
    ensures var n := |ranges| - 1;
            Covers(ranges, i) <==> Covers(ranges[..n], i) || ranges[n].start <= i < ranges[n].start + ranges[n].length
  {
    var n := |ranges| - 1;
    if Covers(ranges[..n], i) {
      var k :| 0 <= k < n && ranges[..n][k].start <= i < ranges[..n][k].start + ranges[..n][k].length;
      assert ranges[k] == ranges[..n][k];
    }
    if Covers(ranges, i) {
      var k :| 0 <= k <= n && ranges[k].start <= i < ranges[k].start + ranges[k].length;
      assert k < n ==> ranges[k] == ranges[..n][k];
    }
  }

  lemma BlankAt(code: Code, r: Range, i: nat)
    requires r.start + r.length <= |code| && i < |code|
    ensures |Blank(code, r)| == |code|
    ensures Blank(code, r)[i] == if r.start <= i < r.start + r.length then 0 else code[i]
  {
  }

  /** Masking zeroes exactly the covered bytes, in whatever order the ranges come. */
  lemma {:induction false} MaskedAt(code: Code, ranges: seq<Range>)
    requires InBounds(ranges, |code|)
    ensures |Masked(code, ranges)| == |code|
    ensures forall i :: 0 <= i < |code| ==> Masked(code, ranges)[i] == if Covers(ranges, i) then 0 else code[i]
  {
    if ranges != [] {
      var n := |ranges| - 1;
      var front, last := ranges[..n], ranges[n];
      assert last in ranges && forall r :: r in front ==> r in ranges;
      MaskedAt(code, front);
      var before := Masked(code, front);
      forall i | 0 <= i < |code|
        ensures Blank(before, last)[i] == if Covers(ranges, i) then 0 else code[i]
      {
        CoversOneMore(ranges, i);
        BlankAt(before, last, i);
      }
    }
  }

  /** len({code[s:s + l] for s, l in group}) == 1 */
  predicate OneValue(code: Code, group: seq<Range>) {
    group != [] && forall k :: 0 <= k < |group| ==> Slice(code, group[k]) == Slice(code, group[0])
  }

  /** The source's comparison; None stands for hex that does not parse. */
  predicate MatchesRuntime(code: Option<Code>, artifact: Artifact) {
    && code.Some? && artifact.runtime.Some?
    && |code.value| == |artifact.runtime.value|
    && (forall g :: 0 <= g < |artifact.groups| ==> OneValue(code.value, artifact.groups[g]))
    && Masked(code.value, artifact.ranges) == Masked(artifact.runtime.value, artifact.ranges)
  }

  /** The compiler's references: one list of ranges an immutable. */
  type References = seq<seq<Range>>

  /** What a compiler guarantees: every reference lies inside the code. */
  ghost predicate FromCompiler(references: References, runtime: Code) {
    forall g :: 0 <= g < |references| ==> InBounds(references[g], |runtime|)
  }

  /** The exported artifact lists the same ranges twice, once flat and once a group each, both sorted. */
  ghost predicate Exports(artifact: Artifact, references: References, runtime: Code) {
    && artifact.runtime == Some(runtime)
    && multiset(artifact.ranges) == multiset(Flat(references))
    && |artifact.groups| == |references|
    && exists place: seq<nat> :: Rearranges(place, artifact.groups, references)
  }

  /** Group g of the artifact is a sorted copy of references[place[g]], each reference used once. */
  ghost predicate Rearranges(place: seq<nat>, groups: seq<seq<Range>>, references: References) {
    && |place| == |groups| == |references|
    && (forall g :: 0 <= g < |place| ==>
        place[g] < |references| && multiset(groups[g]) == multiset(references[place[g]]))
    && (forall r :: 0 <= r < |references| ==> r in place)
  }

  function Flat(references: References): seq<Range> {
    if references == [] then [] else references[0] + Flat(references[1..])
  }

  /** Some values of the immutables explain the code: each group holds one byte string at all its ranges,
      and every byte outside the ranges is the template's. */
  ghost predicate Explains(values: seq<Code>, code: Code, runtime: Code, references: References)
    requires |code| == |runtime| && FromCompiler(references, runtime)
  {
    && |values| == |references|
    && (forall g, r :: 0 <= g < |references| && r in references[g] ==> Slice(code, r) == values[g])
    && (forall i :: 0 <= i < |code| && (forall g :: 0 <= g < |references| ==> !Covers(references[g], i)) ==>
        code[i] == runtime[i])
  }

  lemma {:induction false} FlatMembers(references: References, r: Range)
    ensures r in Flat(references) <==> exists g :: 0 <= g < |references| && r in references[g]
  {
    if references != [] {
      FlatMembers(references[1..], r);
      if exists g :: 0 <= g < |references| && r in references[g] {
        var g :| 0 <= g < |references| && r in references[g];
        assert g > 0 ==> r in references[1..][g - 1];
      }
      if r in Flat(references[1..]) {
        var g :| 0 <= g < |references[1..]| && r in references[1..][g];
        assert r in references[g + 1];
      }
    }
  }

  lemma CoversByMember(a: seq<Range>, b: seq<Range>, i: int)
    requires Covers(a, i) && forall r :: r in a ==> r in b
    ensures Covers(b, i)
  {
    var k :| 0 <= k < |a| && a[k].start <= i < a[k].start + a[k].length;
    assert a[k] in b;
  }

  lemma FlatCovers(references: References, i: int)
    ensures Covers(Flat(references), i) <==> exists g :: 0 <= g < |references| && Covers(references[g], i)
  {
    if Covers(Flat(references), i) {
      var k :| 0 <= k < |Flat(references)|
          && Flat(references)[k].start <= i < Flat(references)[k].start + Flat(references)[k].length;
      FlatMembers(references, Flat(references)[k]);
      var g :| 0 <= g < |references| && Flat(references)[k] in references[g];
      assert Covers(references[g], i);
    }
    if exists g :: 0 <= g < |references| && Covers(references[g], i) {
      var g :| 0 <= g < |references| && Covers(references[g], i);
      forall r | r in references[g] ensures r in Flat(references) { FlatMembers(references, r); }
      CoversByMember(references[g], Flat(references), i);
    }
  }

  /** The artifact's flat ranges cover a byte iff some reference does, and they stay inside the code. */
  lemma ExportCovers(artifact: Artifact, references: References, runtime: Code)
    requires FromCompiler(references, runtime) && Exports(artifact, references, runtime)
    ensures InBounds(artifact.ranges, |runtime|)
    ensures forall i :: Covers(artifact.ranges, i) <==> exists g :: 0 <= g < |references| && Covers(references[g], i)
  {
    forall r
      ensures r in artifact.ranges <==> r in Flat(references)
    {
      assert r in artifact.ranges <==> r in multiset(artifact.ranges);
      assert r in Flat(references) <==> r in multiset(Flat(references));
    }
    forall r | r in artifact.ranges
      ensures r.start + r.length <= |runtime|
    {
      FlatMembers(references, r);
    }
    forall i
      ensures Covers(artifact.ranges, i) <==> exists g :: 0 <= g < |references| && Covers(references[g], i)
    {
      FlatCovers(references, i);
      if Covers(artifact.ranges, i) { CoversByMember(artifact.ranges, Flat(references), i); }
      if Covers(Flat(references), i) { CoversByMember(Flat(references), artifact.ranges, i); }
    }
  }

  /** One value a group says the same about the compiler's references. */
  lemma GroupsAgree(code: Code, artifact: Artifact, references: References, runtime: Code)
    requires Exports(artifact, references, runtime)
    ensures (forall g :: 0 <= g < |artifact.groups| ==> OneValue(code, artifact.groups[g]))
       <==> (forall g :: 0 <= g < |references| ==> OneValue(code, references[g]))
  {
    var place :| Rearranges(place, artifact.groups, references);
    forall g | 0 <= g < |place|
      ensures OneValue(code, artifact.groups[g]) <==> OneValue(code, references[place[g]])
    {
      var group, reference := artifact.groups[g], references[place[g]];
      if OneValue(code, group) { SameMembersOneValue(code, group, reference); }
      if OneValue(code, reference) { SameMembersOneValue(code, reference, group); }
    }
    if forall g :: 0 <= g < |artifact.groups| ==> OneValue(code, artifact.groups[g]) {
      forall r | 0 <= r < |references|
        ensures OneValue(code, references[r])
      {
        assert r in place;
        var g :| 0 <= g < |place| && place[g] == r;
        assert OneValue(code, artifact.groups[g]);
      }
    }
  }

  lemma SameMembersOneValue(code: Code, a: seq<Range>, b: seq<Range>)
    requires multiset(a) == multiset(b) && OneValue(code, a)
    ensures OneValue(code, b)
  {
    assert a[0] in multiset(b);
    forall k | 0 <= k < |b|
      ensures Slice(code, b[k]) == Slice(code, a[0])
    {
      assert b[k] in multiset(a);
    }
  }

  lemma OneValueExplains(code: Code, runtime: Code, references: References)
    requires |code| == |runtime| && FromCompiler(references, runtime)
    requires forall g :: 0 <= g < |references| ==> OneValue(code, references[g])
    requires forall i :: 0 <= i < |code| && (forall g :: 0 <= g < |references| ==> !Covers(references[g], i)) ==>
             code[i] == runtime[i]
    ensures exists values :: Explains(values, code, runtime, references)
  {
    var values := seq(|references|, g requires 0 <= g < |references| => Slice(code, references[g][0]));
    assert Explains(values, code, runtime, references);
  }

  lemma ExplainedHasOneValue(values: seq<Code>, code: Code, runtime: Code, references: References)
    requires |code| == |runtime| && FromCompiler(references, runtime) && Explains(values, code, runtime, references)
    ensures forall g :: 0 <= g < |references| && references[g] != [] ==> OneValue(code, references[g])
  {
    forall g, k | 0 <= g < |references| && 0 <= k < |references[g]|
      ensures Slice(code, references[g][k]) == values[g]
    {
      assert references[g][k] in references[g];
    }
  }

  /** The comparison accepts a code iff it has the template's length and some values of the immutables
      explain it; an immutable without any reference is never accepted. */
  lemma MatchesExactly(code: Code, artifact: Artifact, references: References, runtime: Code)
    requires FromCompiler(references, runtime) && Exports(artifact, references, runtime)
    ensures MatchesRuntime(Some(code), artifact) <==>
            && |code| == |runtime|
            && (forall g :: 0 <= g < |references| ==> references[g] != [])
            && exists values :: Explains(values, code, runtime, references)
  {
    if |code| == |runtime| {
      ExportCovers(artifact, references, runtime);
      GroupsAgree(code, artifact, references, runtime);
      MaskedAt(code, artifact.ranges);
      MaskedAt(runtime, artifact.ranges);
      if MatchesRuntime(Some(code), artifact) {
        forall i | 0 <= i < |code| && !Covers(artifact.ranges, i)
          ensures code[i] == runtime[i]
        {
          assert Masked(code, artifact.ranges)[i] == code[i] && Masked(runtime, artifact.ranges)[i] == runtime[i];
        }
        OneValueExplains(code, runtime, references);
      }
      if (forall g :: 0 <= g < |references| ==> references[g] != []) && exists values ::
          Explains(values, code, runtime, references) {
        var values :| Explains(values, code, runtime, references);
        ExplainedHasOneValue(values, code, runtime, references);
        assert Masked(code, artifact.ranges) == Masked(runtime, artifact.ranges);
      }
    }
  }
}
