/** The market chips of the community forms: tapping a chip toggles that
    market in the selection, and the settings screen compares the selection
    with the markets it loaded. */
module MarketPicker {
  import opened Types
  import opened Seqs

  /** ALL_MARKETS of the settings screen, in its chip order. */
  const SettingsOrder: seq<Market> := [Forex, Crypto, Stocks]

  /** MARKETS of types/market.ts, the onboarding chip order. */
  const OnboardingOrder: seq<Market> := [Crypto, Forex, Stocks]

  function Without(m: Market): Market -> bool {
    (x: Market) => x != m
  }

  /** `prev.includes(m) ? prev.filter(x => x !== m) : [...prev, m]`. */
  function Toggle(selected: seq<Market>, m: Market): (r: seq<Market>)
    ensures m in r <==> m !in selected
    ensures forall x :: x != m ==> (x in r <==> x in selected)
    ensures m in selected ==> r == Keep(selected, Without(m))
    ensures m !in selected ==> r == selected + [m]
  {
    if m in selected then Keep(selected, Without(m)) else selected + [m]
  }

  /** Toggling keeps a selection free of duplicates. */
  lemma {:induction false} ToggleNoDuplicates(selected: seq<Market>, m: Market)
    requires NoDuplicates(selected)
    ensures NoDuplicates(Toggle(selected, m))
  {
    if m in selected {
      KeepNoDuplicates(selected, Without(m));
    }
  }

  lemma {:induction false} KeepNoDuplicates(s: seq<Market>, p: Market -> bool)
    requires NoDuplicates(s)
    ensures NoDuplicates(Keep(s, p))
  {
    if |s| > 0 {
      KeepNoDuplicates(s[1..], p);
      assert s[0] !in s[1..];
    }
  }

  /** Tapping a chip that was off and then tapping it again restores the
      selection exactly. */
  lemma ToggleTwiceRestores(selected: seq<Market>, m: Market)
    requires m !in selected
    ensures Toggle(Toggle(selected, m), m) == selected
  {
    KeepConcat(selected, [m], Without(m));
    KeepAll(selected, Without(m));
    assert Keep([m], Without(m)) == [] by {
      assert [m][1..] == [];
    }
  }

  /** Tapping any chip twice restores the set of selected markets. */
  lemma ToggleTwiceSameSet(selected: seq<Market>, m: Market, x: Market)
    ensures x in Toggle(Toggle(selected, m), m) <==> x in selected
  {
  }

  function Set(s: seq<Market>): set<Market> {
    set x | x in s
  }

  /** `selected.length !== initial.length || selected.some(m => !initial.includes(m))`. */
  predicate MarketsChanged(selected: seq<Market>, initial: seq<Market>) {
    |selected| != |initial| || exists i :: 0 <= i < |selected| && selected[i] !in initial
  }

  lemma {:induction false} SetCardinality(s: seq<Market>)
    requires NoDuplicates(s)
    ensures |Set(s)| == |s|
  {
    if |s| > 0 {
      var init := s[..|s| - 1];
      var last := s[|s| - 1];
      SetCardinality(init);
      assert last !in init by {
        forall k | 0 <= k < |init| ensures init[k] != last {
          assert s[k] != last;
        }
      }
      assert s == init + [last];
      assert Set(s) == Set(init) + {last};
    }
  }

  lemma SubsetCardinality(a: set<Market>, b: set<Market>)
    requires a <= b && a != b
    ensures |a| < |b|
  {
    var x :| x in b && x !in a;
    assert a <= b - {x};
    assert |b - {x}| == |b| - 1;
    assert |a| <= |b - {x}| by {
      assert (b - {x}) == a + ((b - {x}) - a);
    }
  }

  /** For selections without duplicates (every selection the chips can
      produce), a change of the set of markets is always noticed. */
  lemma {:induction false} SetChangeIsNoticed(selected: seq<Market>, initial: seq<Market>)
    requires NoDuplicates(selected)
    requires Set(selected) != Set(initial)
    ensures MarketsChanged(selected, initial)
  {
    if !MarketsChanged(selected, initial) {
      assert Set(selected) <= Set(initial);
      SubsetCardinality(Set(selected), Set(initial));
      SetCardinality(selected);
      SetBound(initial);
    }
  }

  lemma {:induction false} SetBound(s: seq<Market>)
    ensures |Set(s)| <= |s|
  {
    if |s| > 0 {
      SetBound(s[1..]);
      assert Set(s) == {s[0]} + Set(s[1..]);
    }
  }

  /** When both lists are free of duplicates, MarketsChanged holds exactly
      when the two sets differ. */
  lemma MarketsChangedIffSetsDiffer(selected: seq<Market>, initial: seq<Market>)
    requires NoDuplicates(selected) && NoDuplicates(initial)
    ensures MarketsChanged(selected, initial) <==> Set(selected) != Set(initial)
  {
    if Set(selected) != Set(initial) {
      SetChangeIsNoticed(selected, initial);
    }
    if Set(selected) == Set(initial) {
      SetCardinality(selected);
      SetCardinality(initial);
      forall i | 0 <= i < |selected| ensures selected[i] in initial {
        assert selected[i] in Set(selected);
      }
    }
  }

  /** Stored rows with a repeated market make an unchanged selection count
      as changed, so saving rewrites the same markets. */
  lemma DuplicateRowsLookChanged()
    ensures Set([Forex]) == Set([Forex, Forex]) && MarketsChanged([Forex], [Forex, Forex])
  {
    assert Set([Forex, Forex]) == {Forex};
  }
}
