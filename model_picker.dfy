/** The best-effort "model version V1" selection that runs between typing the
    prompt and clicking Generate.  Each strategy is tried only while no
    earlier one has picked V1, and every failure inside the selection is
    swallowed. */
module ModelPicker {
  import opened Oracle
  import opened Strings
  import opened Ranked

  /** Where an option is looked for: the whole page, or inside the dropdown
      container a locator points at. */
  datatype Scope = WholePage | InDropdown(container: Selector)

  /** One way of picking V1: by accessible role `option`, by visible text,
      by a data attribute / button selector, or by typing `v` and Enter. */
  datatype Strategy =
    | ByRole(scope: Scope)
    | ByText(scope: Scope)
    | ByAttribute(scope: Scope, selector: Selector)
    | ByKeyboard

  const V1AttributeSelectors: seq<Selector> :=
    ["[data-testid='version-v1']", "[data-value='v1']", "[data-variant='v1']", "button:has-text('v1')"]

  /** The dropdown containers bot_with_storage.py waits for, in order. */
  const DropdownCandidates: seq<Selector> :=
    ["div[role='listbox']", "div[role='menu']", ".select-content", "[data-radix-popper-content-wrapper]"]

  /** The attribute strategies over `V1AttributeSelectors`, in list order. */
  function AttributeStrategies(scope: Scope): (r: seq<Strategy>)
    ensures |r| == |V1AttributeSelectors|
    ensures forall i | 0 <= i < |r| :: r[i] == ByAttribute(scope, V1AttributeSelectors[i])
  {
    seq(|V1AttributeSelectors|, i requires 0 <= i < |V1AttributeSelectors| =>
      ByAttribute(scope, V1AttributeSelectors[i]))
  }

  /** bot.py's order: role, text, the four attribute selectors, keyboard. */
  function BotCascade(): seq<Strategy> {
    [ByRole(WholePage), ByText(WholePage)] + AttributeStrategies(WholePage) + [ByKeyboard]
  }

  /** bot_with_storage.py's order: role, text and attributes inside the
      dropdown, then role and text on the whole page, then keyboard. */
  function StorageCascade(dropdown: Selector): seq<Strategy> {
    [ByRole(InDropdown(dropdown)), ByText(InDropdown(dropdown))]
      + AttributeStrategies(InDropdown(dropdown))
      + [ByRole(WholePage), ByText(WholePage), ByKeyboard]
  }

  // ---------------------------------------------------------------------------
  // bot.py

  /** The V1 button as bot.py sees it: whether waiting for it, scrolling to
      it and hovering succeed; its `inner_text()` (`None` when that raises);
      and whether clicking it succeeds.  The button is clicked on both
      branches of the label test: to open the list, or, on a label that
      already shows V1, followed by a short pause; `clickOk` covers that
      click and pause too. */
  datatype V1Button = V1Button(ready: bool, caption: Option<string>, clickOk: bool)

  /** The button label after `.strip()`, empty when reading it raised. */
  function LabelOf(button: V1Button): string {
    if button.caption.Some? then Strip(button.caption.value) else ""
  }

  /** `if not label or 'v1' not in label.lower()` */
  predicate NeedsV1Pick(text: string) {
    text == "" || !Contains(Lower(text), "v1")
  }

  /** The emptiness test adds nothing to the containment test: a stripped
      label needs picking exactly when the raw text does not contain `v1`
      in any letter case. */
  lemma NeedsV1PickIgnoresStrip(raw: string)
    ensures NeedsV1Pick(Strip(raw)) <==> !Contains(Lower(raw), "v1")
  {
    if Contains(Lower(raw), "v1") {
      ContainsLowerSurvivesStrip(raw, "v1");
    }
    if Contains(Lower(Strip(raw)), "v1") {
      ContainsLowerOfStrip(raw, "v1");
    }
  }

  /** What the selection did: nothing (the button never became usable, or
      clicking it raised), a click on a button already labelled V1, or the
      cascade with its winner, the strategies tried in order, and the final
      value of `picked`. */
  datatype V1Outcome =
    | Skipped
    | AlreadyV1
    | Cascade(winner: Option<Strategy>, tried: seq<Strategy>, picked: bool)

  /** The outcome of bot.py's selection as a function of what the page does. */
  function BotV1(button: V1Button, works: Strategy -> bool): (r: V1Outcome)
    ensures r.Cascade? ==> |r.tried| <= |BotCascade()| && r.tried == BotCascade()[..|r.tried|]
    ensures r.Cascade? ==> forall j | 0 <= j < |r.tried| - 1 :: !works(r.tried[j])
    ensures r.Cascade? && r.winner.Some? ==>
      r.tried != [] && r.tried[|r.tried| - 1] == r.winner.value && works(r.winner.value)
    ensures r.Cascade? && r.winner.None? ==> forall s | s in BotCascade() :: !works(s)
    ensures r.Cascade? && r.winner.None? ==> r.tried == BotCascade()
  {
    if !button.ready then Skipped
    else if !button.clickOk then Skipped
    else if !NeedsV1Pick(LabelOf(button)) then AlreadyV1
    else
      var cascade := BotCascade();
      var k := FirstHit(cascade, works);
      Cascade(
        if k.Some? then Some(cascade[k.value]) else None,
        Consulted(cascade, k),
        k.Some? && cascade[k.value] != ByKeyboard)
  }

  /** The gate in front of bot.py's cascade: it runs exactly when the button
      is ready, its click goes through, and its label is unreadable, empty
      or lacks "v1" in any letter case; the button is left as it is exactly
      when the click goes through on a label that contains "v1". */
  lemma BotCascadeGate(button: V1Button, works: Strategy -> bool)
    ensures BotV1(button, works).Cascade? <==>
      button.ready && button.clickOk && (button.caption.None? || !Contains(Lower(button.caption.value), "v1"))
    ensures BotV1(button, works) == AlreadyV1 <==>
      button.ready && button.clickOk && button.caption.Some? && Contains(Lower(button.caption.value), "v1")
  {
    if button.caption.Some? {
      NeedsV1PickIgnoresStrip(button.caption.value);
    }
  }

  /** In bot.py typing `v` + Enter does not set `picked`: the flag ends up
      true exactly when one of the menu strategies before the keyboard works. */
  lemma BotPickedIffMenuStrategyWorks(button: V1Button, works: Strategy -> bool)
    requires BotV1(button, works).Cascade?
    ensures BotV1(button, works).picked <==>
      exists j | 0 <= j < |BotCascade()| - 1 :: works(BotCascade()[j])
  {
    var cascade := BotCascade();
    var k := FirstHit(cascade, works);
    assert cascade[|cascade| - 1] == ByKeyboard;
    if k.Some? && cascade[k.value] == ByKeyboard {
      forall j | 0 <= j < |cascade| - 1 ensures !works(cascade[j]) {
        assert cascade[j] != ByKeyboard;
      }
    }
  }

  /** bot.py lines 292-362 as written: a `picked` flag threaded through the
      strategies, the attribute selectors in an inner loop with `break`. */
  method SelectV1(button: V1Button, works: Strategy -> bool) returns (outcome: V1Outcome)
    ensures outcome == BotV1(button, works)
  {
    if !button.ready {
      return Skipped;
    }
    var caption := if button.caption.Some? then Strip(button.caption.value) else "";
    if !NeedsV1Pick(caption) {
      // the label already shows V1: the button is clicked all the same
      if !button.clickOk {
        return Skipped;
      }
      return AlreadyV1;
    }
    if !button.clickOk {
      return Skipped;
    }
    outcome := RunBotCascade(works);
  }

  /** The strategies of bot.py once the button is open: `picked` is set by
      every strategy but the keyboard fallback. */
  method RunBotCascade(works: Strategy -> bool) returns (outcome: V1Outcome)
    ensures var cascade := BotCascade();
      var k := FirstHit(cascade, works);
      outcome == Cascade(if k.Some? then Some(cascade[k.value]) else None, Consulted(cascade, k),
                         k.Some? && cascade[k.value] != ByKeyboard)
  {
    ghost var cascade := BotCascade();
    assert cascade[0] == ByRole(WholePage) && cascade[1] == ByText(WholePage);
    assert cascade[|cascade| - 1] == ByKeyboard;
    var picked := false;
    var winner: Option<Strategy> := None;
    var tried: seq<Strategy> := [];
    Advance(cascade, works, tried);
    tried := tried + [ByRole(WholePage)];
    if works(ByRole(WholePage)) {
      picked, winner := true, Some(ByRole(WholePage));
    }
    if !picked {
      Advance(cascade, works, tried);
      tried := tried + [ByText(WholePage)];
      if works(ByText(WholePage)) {
        picked, winner := true, Some(ByText(WholePage));
      }
    }
    if !picked {
      var i := 0;
      while i < |V1AttributeSelectors|
        invariant 0 <= i <= |V1AttributeSelectors|
        invariant !picked && winner.None?
        invariant |tried| == 2 + i && SearchedUpTo(cascade, works, tried, None)
      {
        var st := ByAttribute(WholePage, V1AttributeSelectors[i]);
        assert cascade[|tried|] == st;
        Advance(cascade, works, tried);
        tried := tried + [st];
        if works(st) {
          picked, winner := true, Some(st);
          break;
        }
        i := i + 1;
      }
    }
    if !picked {
      Advance(cascade, works, tried);
      tried := tried + [ByKeyboard];
      if works(ByKeyboard) {
        winner := Some(ByKeyboard);
      }
    }
    outcome := Cascade(winner, tried, picked);
    CascadeMatchesFirstHit(cascade, works, winner, tried);
  }

  /** The state of a first-match search over `cascade` after it consulted
      `tried`: a prefix, whose entries before the last failed, with `winner`
      the last entry exactly when that one works. */
  ghost predicate SearchedUpTo(cascade: seq<Strategy>, works: Strategy -> bool, tried: seq<Strategy>, winner: Option<Strategy>) {
    && |tried| <= |cascade| && tried == cascade[..|tried|]
    && (forall j | 0 <= j < |tried| :: j < |tried| - 1 || winner.None? ==> !works(tried[j]))
    && (winner.Some? ==> tried != [] && winner.value == tried[|tried| - 1] && works(winner.value))
  }

  /** Consulting one more entry after a search without winner. */
  lemma Advance(cascade: seq<Strategy>, works: Strategy -> bool, tried: seq<Strategy>)
    requires tried == [] || SearchedUpTo(cascade, works, tried, None)
    requires |tried| < |cascade|
    ensures var st := cascade[|tried|];
      SearchedUpTo(cascade, works, tried + [st], if works(st) then Some(st) else None)
  {
    assert cascade[..|tried| + 1] == cascade[..|tried|] + [cascade[|tried|]];
  }

  /** A search that stopped at its winner, or ran through the whole cascade
      without one, found what `FirstHit` finds. */
  lemma CascadeMatchesFirstHit(cascade: seq<Strategy>, works: Strategy -> bool, winner: Option<Strategy>, tried: seq<Strategy>)
    requires SearchedUpTo(cascade, works, tried, winner)
    requires winner.None? ==> |tried| == |cascade|
    ensures var k := FirstHit(cascade, works);
      && (winner.Some? <==> k.Some?)
      && (k.Some? ==> k.value == |tried| - 1 && winner.value == cascade[k.value])
      && tried == Consulted(cascade, k)
  {
    var k := FirstHit(cascade, works);
    if winner.Some? {
      var n := |tried| - 1;
      assert works(cascade[n]);
      assert forall j | 0 <= j < n :: !works(cascade[j]) by {
        forall j | 0 <= j < n ensures !works(cascade[j]) {
          assert cascade[j] == tried[j];
        }
      }
      assert k.Some? && k.value <= n;
      assert k.value == n;
    } else {
      assert tried == cascade;
      assert forall j | 0 <= j < |cascade| :: !works(cascade[j]) by {
        forall j | 0 <= j < |cascade| ensures !works(cascade[j]) {
          assert cascade[j] == tried[j];
        }
      }
    }
  }

  // ---------------------------------------------------------------------------
  // bot_with_storage.py

  /** The page as bot_with_storage.py's selection sees it: whether waiting
      for, scrolling to and clicking the V1 button (and the pause after)
      succeed; which dropdown candidates appear within their wait; and which
      strategies work. */
  datatype StorageV1Page = StorageV1Page(
    buttonOk: bool,
    appears: Selector -> bool,
    works: Strategy -> bool)

  /** The `dropdown` variable after the candidate loop.  It is assigned
      before each wait, so a candidate that never appears still leaves its
      locator behind: when no candidate appears, it is the last one, and it
      is never `None`. */
  function DropdownAfterLoop(appears: Selector -> bool): (d: Selector)
    ensures d in DropdownCandidates
    ensures (exists i | 0 <= i < |DropdownCandidates| :: appears(DropdownCandidates[i])) ==>
      exists i | 0 <= i < |DropdownCandidates| ::
        && d == DropdownCandidates[i] && appears(d)
        && forall j | 0 <= j < i :: !appears(DropdownCandidates[j])
    ensures (forall i | 0 <= i < |DropdownCandidates| :: !appears(DropdownCandidates[i])) ==>
      d == DropdownCandidates[|DropdownCandidates| - 1]
  {
    match FirstHit(DropdownCandidates, appears)
    case Some(i) => DropdownCandidates[i]
    case None => DropdownCandidates[|DropdownCandidates| - 1]
  }

  /** The outcome of bot_with_storage.py's selection. */
  function StorageV1(page: StorageV1Page): (r: V1Outcome)
    ensures !page.buttonOk <==> r == Skipped
    ensures r != AlreadyV1
  {
    if !page.buttonOk then Skipped
    else
      var cascade := StorageCascade(DropdownAfterLoop(page.appears));
      var k := FirstHit(cascade, page.works);
      Cascade(if k.Some? then Some(cascade[k.value]) else None, Consulted(cascade, k), k.Some?)
  }

  /** In bot_with_storage.py the keyboard fallback counts as a pick, so
      `picked` is true exactly when some strategy of the cascade works; in
      particular the keyboard sets it whenever everything before it failed
      and its two key actions do not raise. */
  lemma StoragePickedIffSomeStrategyWorks(page: StorageV1Page)
    requires page.buttonOk
    ensures var r := StorageV1(page);
      var cascade := StorageCascade(DropdownAfterLoop(page.appears));
      && r.Cascade?
      && (r.picked <==> exists j | 0 <= j < |cascade| :: page.works(cascade[j]))
      && (page.works(ByKeyboard) ==> r.picked)
      && (r.picked ==> r.winner.Some? && page.works(r.winner.value))
  {
    var cascade := StorageCascade(DropdownAfterLoop(page.appears));
    assert cascade[|cascade| - 1] == ByKeyboard;
  }

  /** The in-dropdown strategies are always consulted before the page-wide
      ones, whether or not any dropdown candidate appeared. */
  lemma DropdownStrategiesAlwaysFirst(page: StorageV1Page)
    requires page.buttonOk
    ensures var r := StorageV1(page);
      r.Cascade? && r.tried != [] && r.tried[0] == ByRole(InDropdown(DropdownAfterLoop(page.appears)))
  {
  }

  /** bot_with_storage.py lines 177-260 as written: the candidate loop, then
      the `picked` flag threaded through the dropdown strategies, the
      page-wide ones and the keyboard. */
  method SelectV1FromStorage(page: StorageV1Page) returns (outcome: V1Outcome)
    ensures outcome == StorageV1(page)
  {
    if !page.buttonOk {
      return Skipped;
    }
    var dropdown := WaitForDropdown(page.appears);
    outcome := RunStorageCascade(dropdown, page.works);
  }

  /** The candidate loop: each candidate's locator is assigned, then waited
      for; the first one that appears ends the loop. */
  method WaitForDropdown(appears: Selector -> bool) returns (dropdown: Selector)
    ensures dropdown == DropdownAfterLoop(appears)
  {
    var found, _ := FirstWins(DropdownCandidates, appears);
    dropdown := if found.Some? then DropdownCandidates[found.value]
                else DropdownCandidates[|DropdownCandidates| - 1];
  }

  /** The strategies of bot_with_storage.py once the dropdown is known. */
  method RunStorageCascade(dropdown: Selector, works: Strategy -> bool) returns (outcome: V1Outcome)
    ensures var cascade := StorageCascade(dropdown);
      var k := FirstHit(cascade, works);
      outcome == Cascade(if k.Some? then Some(cascade[k.value]) else None, Consulted(cascade, k), k.Some?)
  {
    var inDropdown := InDropdown(dropdown);
    ghost var cascade := StorageCascade(dropdown);
    assert cascade[0] == ByRole(inDropdown) && cascade[1] == ByText(inDropdown);
    assert cascade[6] == ByRole(WholePage) && cascade[7] == ByText(WholePage) && cascade[8] == ByKeyboard;
    var picked := false;
    var winner: Option<Strategy> := None;
    var tried: seq<Strategy> := [];
    Advance(cascade, works, tried);
    tried := tried + [ByRole(inDropdown)];
    if works(ByRole(inDropdown)) {
      picked, winner := true, Some(ByRole(inDropdown));
    }
    if !picked {
      Advance(cascade, works, tried);
      tried := tried + [ByText(inDropdown)];
      if works(ByText(inDropdown)) {
        picked, winner := true, Some(ByText(inDropdown));
      }
    }
    if !picked {
      var i := 0;
      while i < |V1AttributeSelectors|
        invariant 0 <= i <= |V1AttributeSelectors|
        invariant !picked && winner.None?
        invariant |tried| == 2 + i && SearchedUpTo(cascade, works, tried, None)
      {
        var st := ByAttribute(inDropdown, V1AttributeSelectors[i]);
        assert cascade[|tried|] == st;
        Advance(cascade, works, tried);
        tried := tried + [st];
        if works(st) {
          picked, winner := true, Some(st);
          break;
        }
        i := i + 1;
      }
    }
    if !picked {
      Advance(cascade, works, tried);
      tried := tried + [ByRole(WholePage)];
      if works(ByRole(WholePage)) {
        picked, winner := true, Some(ByRole(WholePage));
      }
    }
    if !picked {
      Advance(cascade, works, tried);
      tried := tried + [ByText(WholePage)];
      if works(ByText(WholePage)) {
        picked, winner := true, Some(ByText(WholePage));
      }
    }
    if !picked {
      Advance(cascade, works, tried);
      tried := tried + [ByKeyboard];
      if works(ByKeyboard) {
        picked, winner := true, Some(ByKeyboard);
      }
    }
    outcome := Cascade(winner, tried, picked);
    CascadeMatchesFirstHit(cascade, works, winner, tried);
  }
}
