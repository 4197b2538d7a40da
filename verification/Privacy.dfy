/** The privacy classifications of app/memory/context_compiler.py and how two of them are combined. */
module Privacy {
  import opened Wrappers

  datatype Level = Public | Internal | Confidential | LocalOnly

  // Labels are strings in the source; `Unknown` is any string outside the four known policies.
  datatype Label = Known(level: Level) | Unknown(name: string)

  function Strictness(l: Level): nat {
    match l
    case Public => 0
    case Internal => 1
    case Confidential => 2
    case LocalOnly => 3
  }

  /** `stricter_privacy_requirement`. */
  function Stricter(current: Option<Label>, required: Option<Label>): Option<Label> {
    if required.None? then current
    else if current.None? then required
    else if current.value.Unknown? || required.value.Unknown? then current
    else if Strictness(required.value.level) > Strictness(current.value.level) then required
    else current
  }

  /** `r` is a known policy at least as strict as `l`. */
  predicate Covers(r: Option<Label>, l: Level) {
    r.Some? && r.value.Known? && Strictness(r.value.level) >= Strictness(l)
  }

  predicate Recognised(r: Option<Label>) {
    r.Some? ==> r.value.Known?
  }

  /** `r` is the strictest of `levels`, or nothing when there are none. */
  ghost predicate IsJoin(r: Option<Label>, levels: set<Level>) {
    if levels == {} then r == None
    else r.Some? && r.value.Known? && r.value.level in levels && forall l | l in levels :: Covers(r, l)
  }

  // The four levels are a chain.
  lemma CoversIff(a: Level, b: Level)
    ensures Covers(Some(Known(a)), b) <==> a == b || a == LocalOnly || b == Public || (a == Confidential && b == Internal)
  {
  }

  // The least upper bound: what is covered afterwards is exactly what one of the two covered.
  lemma StricterIsLeastUpperBound(current: Option<Label>, required: Option<Label>)
    requires Recognised(current) && Recognised(required)
    ensures Recognised(Stricter(current, required))
    ensures Stricter(current, required) == None <==> current == None && required == None
    ensures forall l :: Covers(Stricter(current, required), l) <==> Covers(current, l) || Covers(required, l)
  {
  }

  // An existing boundary survives every later requirement, known or not.
  lemma StricterNeverWeakens(current: Option<Label>, required: Option<Label>, l: Level)
    requires Covers(current, l)
    ensures Covers(Stricter(current, required), l)
  {
  }

  // Adding one more classification to a join.
  lemma JoinExtends(r: Option<Label>, levels: set<Level>, l: Level)
    requires IsJoin(r, levels)
    ensures IsJoin(Stricter(r, Some(Known(l))), levels + {l})
  {
    assert l in levels + {l};
  }

  lemma JoinIsMonotone(r: Option<Label>, levels: set<Level>, r': Option<Label>, levels': set<Level>)
    requires IsJoin(r, levels) && IsJoin(r', levels') && levels <= levels'
    ensures r.Some? ==> Covers(r', r.value.level)
  {
  }

  lemma JoinIsUnique(r: Option<Label>, r': Option<Label>, levels: set<Level>)
    requires IsJoin(r, levels) && IsJoin(r', levels)
    ensures r == r'
  {
    if levels != {} {
      assert Strictness(r.value.level) == Strictness(r'.value.level);
    }
  }
}
