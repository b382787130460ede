/** Properties of the enumerations: exact membership and parse/value round trips. */
module ConstantsProperties {
  import opened Wrappers
  import opened Constants

  /** `State` has exactly the seven members of `Phases`, each listed once. */
  lemma PhasesEnumerateState()
    ensures |Phases| == 7
    ensures forall s: State :: s in Phases
    ensures forall i, j :: 0 <= i < j < |Phases| ==> StateValue(Phases[i]) != StateValue(Phases[j])
  {
    forall s: State ensures s in Phases {
      assert Phases[PhaseIndex(s)] == s;
    }
  }

  /** Parsing a member's value gives the member back: the values are pairwise distinct. */
  lemma ParseStateValue(s: State)
    ensures ParseState(StateValue(s)) == Some(s)
  {
  }

  lemma ParseTransponderModeValue(m: TransponderMode)
    ensures ParseTransponderMode(TransponderModeValue(m)) == Some(m)
  {
  }

  lemma ParseWakeTurbulenceValue(w: WakeTurbulence)
    ensures ParseWakeTurbulence(WakeTurbulenceValue(w)) == Some(w)
  {
  }
}
