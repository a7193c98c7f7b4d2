/** `assistedParameters`: which parameters of a function, constructor or
    assisted creator are passed through from the factory's `create` call, and
    the errors that rejecting the others reports. */
module Assisted {
  import opened Seqs
  import opened Text
  import opened Diagnostics
  import opened Declarations
  import opened CodegenModes

  /** `AssistedType(factoryName, type, name)`: parameter `name` receives `factoryName`. */
  datatype AssistedType = AssistedType(factoryName: string, typeName: string, name: string)

  /** What one parameter contributes to the set. */
  datatype Contribution = Include(entry: AssistedType) | Reject(error: Diagnostic) | Ignore

  /** The `when` over one parameter's type, in the source's order: screen,
      navigator, state or modifier, anything else. */
  function Classify(p: Param, screen: ScreenRef, mode: CodegenMode, allowNavigator: bool): (c: Contribution)
    ensures c.Include? && p.ty.isScreen ==> c.entry == AssistedType("screen", p.ty.rendered, p.name)
    ensures p.ty.isScreen ==> (c.Include? <==> p.ty.decl == screen.decl)
    ensures p.ty.isScreen && p.ty.decl != screen.decl ==> c == Reject(ScreenTypeMismatch(screen.rendered, p.ty.rendered))
    ensures !p.ty.isScreen && p.ty.isNavigator ==> (c.Include? <==> allowNavigator)
    ensures !p.ty.isScreen && !p.ty.isNavigator && (p.ty.isUiState || p.ty.isModifier) ==> c == Ignore
    ensures !p.ty.isScreen && !p.ty.isNavigator && !p.ty.isUiState && !p.ty.isModifier ==>
              (c.Include? <==> mode == KotlinInject)
    ensures !p.ty.isScreen && p.ty.isNavigator && !allowNavigator ==> c == Reject(NavigatorNotInjectable(p.name))
    ensures c.Include? ==> c.entry.name == p.name && c.entry.typeName == p.ty.rendered
    // the name the factory passes the value under: its role, or the parameter's own name
    ensures c.Include? && !p.ty.isScreen && p.ty.isNavigator ==> c.entry.factoryName == "navigator"
    ensures c.Include? && !p.ty.isScreen && !p.ty.isNavigator ==> c.entry.factoryName == p.name
  {
    if p.ty.isScreen then
      if p.ty.decl == screen.decl then Include(AssistedType("screen", p.ty.rendered, p.name))
      else Reject(ScreenTypeMismatch(screen.rendered, p.ty.rendered))
    else if p.ty.isNavigator then
      if allowNavigator then Include(AssistedType("navigator", p.ty.rendered, p.name))
      else Reject(NavigatorNotInjectable(p.name))
    else if p.ty.isUiState || p.ty.isModifier then Ignore
    else if mode == KotlinInject then Include(AssistedType(p.name, p.ty.rendered, p.name))
    else Ignore
  }

  /** The insertion-ordered set built so far and the errors logged so far. */
  datatype Resolution = Resolution(entries: seq<AssistedType>, errors: seq<Diagnostic>)

  /** One iteration of the loop: `addOrError` for an included entry, an error
      for a rejected parameter, nothing otherwise. */
  function Step(acc: Resolution, c: Contribution): Resolution {
    match c
    case Include(e) =>
      if e in acc.entries then Resolution(acc.entries, acc.errors + [DuplicateAssisted(e.factoryName, e.typeName, e.name)])
      else Resolution(acc.entries + [e], acc.errors)
    case Reject(d) => Resolution(acc.entries, acc.errors + [d])
    case Ignore => acc
  }

  /** The `buildSet` loop over `params`, in order. */
  function Resolve(params: seq<Param>, screen: ScreenRef, mode: CodegenMode, allowNavigator: bool): (r: Resolution)
    ensures NoDuplicates(r.entries)
  {
    if |params| == 0 then Resolution([], [])
    else
      var prev := Resolve(params[..|params| - 1], screen, mode, allowNavigator);
      Step(prev, Classify(params[|params| - 1], screen, mode, allowNavigator))
  }

  /** Reference definition: every entry some parameter asks to include, in
      parameter order, duplicates kept. */
  function Included(params: seq<Param>, screen: ScreenRef, mode: CodegenMode, allowNavigator: bool): seq<AssistedType> {
    if |params| == 0 then []
    else
      var c := Classify(params[|params| - 1], screen, mode, allowNavigator);
      Included(params[..|params| - 1], screen, mode, allowNavigator) + (if c.Include? then [c.entry] else [])
  }

  /** `buildSet` keeps the first occurrence of each included entry, in
      parameter order. */
  lemma {:induction false} ResolveOrder(params: seq<Param>, screen: ScreenRef, mode: CodegenMode, allowNavigator: bool)
    ensures Resolve(params, screen, mode, allowNavigator).entries == Distinct(Included(params, screen, mode, allowNavigator))
  {
    if |params| > 0 {
      var init := params[..|params| - 1];
      var c := Classify(params[|params| - 1], screen, mode, allowNavigator);
      var inc := Included(init, screen, mode, allowNavigator);
      ResolveOrder(init, screen, mode, allowNavigator);
      match c
      case Include(e) =>
        var all := inc + [e];
        assert Included(params, screen, mode, allowNavigator) == all;
        assert all[..|all| - 1] == inc;
      case Reject(_) =>
        assert Included(params, screen, mode, allowNavigator) == inc + [];
        assert inc + [] == inc;
      case Ignore =>
        assert Included(params, screen, mode, allowNavigator) == inc + [];
        assert inc + [] == inc;
    }
  }

  /** Some parameter is rejected outright (screen mismatch or navigator not allowed). */
  predicate HasRejected(params: seq<Param>, screen: ScreenRef, mode: CodegenMode, allowNavigator: bool) {
    exists i :: 0 <= i < |params| && Classify(params[i], screen, mode, allowNavigator).Reject?
  }

  /** The resolved set holds exactly the entries some parameter asks to include. */
  lemma {:induction false} ResolveMembers(params: seq<Param>, screen: ScreenRef, mode: CodegenMode, allowNavigator: bool)
    ensures forall e :: e in Resolve(params, screen, mode, allowNavigator).entries <==>
              e in Included(params, screen, mode, allowNavigator)
  {
    if |params| > 0 {
      ResolveMembers(params[..|params| - 1], screen, mode, allowNavigator);
    }
  }

  /** What one parameter reports, given the parameters before it: its
      rejection, or the repeated entry when an earlier parameter already asked
      for the same one. */
  function ParamErrors(before: seq<Param>, p: Param, screen: ScreenRef, mode: CodegenMode, allowNavigator: bool)
    : seq<Diagnostic>
  {
    match Classify(p, screen, mode, allowNavigator)
    case Reject(d) => [d]
    case Include(e) =>
      if e in Included(before, screen, mode, allowNavigator) then [DuplicateAssisted(e.factoryName, e.typeName, e.name)]
      else []
    case Ignore => []
  }

  /** Reference definition: one error per rejected parameter and one per
      repeated entry, in parameter order. */
  function ExpectedErrors(params: seq<Param>, screen: ScreenRef, mode: CodegenMode, allowNavigator: bool)
    : seq<Diagnostic>
  {
    if |params| == 0 then []
    else
      var init := params[..|params| - 1];
      ExpectedErrors(init, screen, mode, allowNavigator) + ParamErrors(init, params[|params| - 1], screen, mode, allowNavigator)
  }

  /** Every rejected parameter and every repeated entry is reported, once,
      in parameter order, and nothing else is. */
  lemma {:induction false} ResolveErrors(params: seq<Param>, screen: ScreenRef, mode: CodegenMode, allowNavigator: bool)
    ensures Resolve(params, screen, mode, allowNavigator).errors == ExpectedErrors(params, screen, mode, allowNavigator)
  {
    if |params| > 0 {
      var init := params[..|params| - 1];
      ResolveErrors(init, screen, mode, allowNavigator);
      ResolveMembers(init, screen, mode, allowNavigator);
      var prev := Resolve(init, screen, mode, allowNavigator);
      var c := Classify(params[|params| - 1], screen, mode, allowNavigator);
      assert Resolve(params, screen, mode, allowNavigator) == Step(prev, c);
    }
  }

  /** The resolution is error-free exactly when no parameter is rejected and
      no entry is asked for twice. */
  lemma {:induction false} ResolveErrorFree(params: seq<Param>, screen: ScreenRef, mode: CodegenMode, allowNavigator: bool)
    ensures Resolve(params, screen, mode, allowNavigator).errors == [] <==>
              !HasRejected(params, screen, mode, allowNavigator) && NoDuplicates(Included(params, screen, mode, allowNavigator))
  {
    if |params| > 0 {
      var init := params[..|params| - 1];
      var p := params[|params| - 1];
      var c := Classify(p, screen, mode, allowNavigator);
      var prev := Resolve(init, screen, mode, allowNavigator);
      var inc := Included(init, screen, mode, allowNavigator);
      ResolveErrorFree(init, screen, mode, allowNavigator);
      ResolveMembers(init, screen, mode, allowNavigator);
      assert HasRejected(params, screen, mode, allowNavigator) <==>
             HasRejected(init, screen, mode, allowNavigator) || c.Reject? by {
        if HasRejected(params, screen, mode, allowNavigator) && !c.Reject? {
          var i :| 0 <= i < |params| && Classify(params[i], screen, mode, allowNavigator).Reject?;
          assert params[i] == init[i];
        }
        if HasRejected(init, screen, mode, allowNavigator) {
          var i :| 0 <= i < |init| && Classify(init[i], screen, mode, allowNavigator).Reject?;
          assert init[i] == params[i];
        }
      }
      assert Resolve(params, screen, mode, allowNavigator) == Step(prev, c);
      match c
      case Include(e) =>
        assert Included(params, screen, mode, allowNavigator) == inc + [e];
        NoDuplicatesSnoc(inc, e);
      case Reject(d) =>
      case Ignore =>
        assert Included(params, screen, mode, allowNavigator) == inc + [];
        assert inc + [] == inc;
    }
  }

  /** `name = factoryName`, the argument an entry passes. */
  function Argument(e: AssistedType): string {
    e.name + " = " + e.factoryName
  }

  /** `joinToCode(", ")` over the entries' arguments. */
  function Render(entries: seq<AssistedType>): string {
    Join(seq(|entries|, i requires 0 <= i < |entries| => Argument(entries[i])), ", ")
  }

  /** The rendered list is empty exactly when there are no entries (the UI
      template relies on this to decide whether to add a leading comma). */
  lemma RenderEmpty(entries: seq<AssistedType>)
    ensures Render(entries) == "" <==> entries == []
  {
    if entries != [] {
      var parts := seq(|entries|, i requires 0 <= i < |entries| => Argument(entries[i]));
      JoinStartsWithFirst(parts, ", ");
      assert |parts[0]| > 0;
    }
  }

  lemma JoinStartsWithFirst(parts: seq<string>, sep: string)
    requires |parts| > 0
    ensures |Join(parts, sep)| >= |parts[0]|
  {
  }

  /** Separating the rendered arguments at ',' recovers each argument, every
      one after the first behind the space of the separator ", ": rendering
      loses nothing when no argument contains ','. */
  lemma RenderSplits(entries: seq<AssistedType>)
    requires |entries| > 0
    requires forall i :: 0 <= i < |entries| ==> ',' !in Argument(entries[i])
    ensures |Split(Render(entries), ',')| == |entries|
    ensures Split(Render(entries), ',')[0] == Argument(entries[0])
    ensures forall i :: 1 <= i < |entries| ==> Split(Render(entries), ',')[i] == " " + Argument(entries[i])
  {
    var parts := seq(|entries|, i requires 0 <= i < |entries| => Argument(entries[i]));
    JoinWithSpaceSplits(parts);
  }

  /** The pieces of `parts` joined with ", " and split at ','. */
  function Spaced(parts: seq<string>): seq<string>
    requires |parts| > 0
  {
    [parts[0]] + seq(|parts| - 1, i requires 0 <= i < |parts| - 1 => " " + parts[i + 1])
  }

  lemma {:induction false} JoinWithSpaceSplits(parts: seq<string>)
    requires |parts| > 0
    requires forall i :: 0 <= i < |parts| ==> ',' !in parts[i]
    ensures Split(Join(parts, ", "), ',') == Spaced(parts)
  {
    if |parts| == 1 {
      SplitNoSeparator(parts[0], ',');
    } else {
      JoinWithSpaceSplits(parts[1..]);
      var rest := Join(parts[1..], ", ");
      assert Join(parts, ", ") == parts[0] + [','] + (" " + rest);
      SplitCons(parts[0], " " + rest, ',');
      SplitLeadingSpace(rest);
      var tail := Spaced(parts[1..]);
      assert Split(" " + rest, ',') == [" " + tail[0]] + tail[1..];
      SpacedCons(parts);
    }
  }

  lemma SpacedCons(parts: seq<string>)
    requires |parts| >= 2
    ensures var tail := Spaced(parts[1..]);
            Spaced(parts) == [parts[0]] + ([" " + tail[0]] + tail[1..])
  {
    var tail := Spaced(parts[1..]);
    var lhs := Spaced(parts);
    var rhs := [parts[0]] + ([" " + tail[0]] + tail[1..]);
    assert |lhs| == |rhs|;
    forall k | 0 <= k < |lhs|
      ensures lhs[k] == rhs[k]
    {
      if k >= 2 {
        assert rhs[k] == tail[k - 1] == " " + parts[1..][k - 1];
      }
    }
  }

  /** A leading space before the first separator lands in the first piece. */
  lemma SplitLeadingSpace(s: string)
    ensures Split(" " + s, ',') == [" " + Split(s, ',')[0]] + Split(s, ',')[1..]
  {
    assert (" " + s)[1..] == s;
  }
}
