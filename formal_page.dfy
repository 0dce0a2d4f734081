/**
 * The formal landing page's own state: which module detail panels are expanded. Its
 * contact form is the same code as the default page's, modelled once in `ContactForm`.
 */
module FormalPage {

  /** `expandedModules[k]` is truthy: an absent key reads as collapsed. */
  predicate IsExpanded(m: map<int, bool>, k: int)
    ensures k !in m ==> !IsExpanded(m, k)
  {
    k in m && m[k]
  }

  /**
   * `{ ...expandedModules, [k]: !expandedModules[k] }`: module `k` flips and every
   * other key keeps its presence and its value.
   */
  function Toggled(m: map<int, bool>, k: int): (t: map<int, bool>)
    ensures k in t && IsExpanded(t, k) == !IsExpanded(m, k)
    ensures forall j :: j != k ==> (j in t <==> j in m)
    ensures forall j :: j in m && j != k ==> t[j] == m[j]
  {
    m[k := !IsExpanded(m, k)]
  }

  /**
   * Toggling a module twice gives every module its former visible state, and gives
   * back the very same map when the key was already present.
   */
  lemma ToggleTwice(m: map<int, bool>, k: int)
    ensures forall j :: IsExpanded(Toggled(Toggled(m, k), k), j) == IsExpanded(m, j)
    ensures k in m ==> Toggled(Toggled(m, k), k) == m
  {
    var t := Toggled(Toggled(m, k), k);
    if k in m {
      assert t.Keys == m.Keys;
    }
  }

  /** No two modules are coupled: toggles of two modules commute. */
  lemma TogglesCommute(m: map<int, bool>, j: int, k: int)
    ensures Toggled(Toggled(m, j), k) == Toggled(Toggled(m, k), j)
  {
    if j != k {
      assert IsExpanded(Toggled(m, j), k) == IsExpanded(m, k);
      assert IsExpanded(Toggled(m, k), j) == IsExpanded(m, j);
    }
  }

  /** The page's `expandedModules` state cell. */
  class ModuleDetails {
    var expandedModules: map<int, bool>

    constructor ()
      ensures expandedModules == map[]
      ensures forall k :: !IsExpanded(expandedModules, k)
    {
      expandedModules := map[];
    }

    /** A module button's `onClick`. */
    method Toggle(k: int)
      modifies this
      ensures expandedModules == Toggled(old(expandedModules), k)
    {
      expandedModules := expandedModules[k := !(k in expandedModules && expandedModules[k])];
    }
  }
}
