/** The `Duels` view: its load callback, and the single-selection state machine driven
    by clicks and by the up/down arrow keys.

    jQuery selections are abstracted to list positions: a selection is either one
    rendered item (`Item(i)`) or the empty set that `next()` and `prev()` return past
    either end of the list (`NoElement`). The `selected` class on the DOM nodes is the
    set `marked` of positions carrying it; `emit('selected', id)` appends `id` to
    `emitted`; `show()` writes the rendered markup into `content`. */
module DuelsView {
  import opened DuelsMarkup

  /** A jQuery selection among the rendered items. */
  datatype Elem = Item(index: nat) | NoElement

  /** `this.$selected`: `null` (None) or a jQuery selection. */
  datatype Selection = Null | Selected(elem: Elem)

  /** The exceptions the handlers can raise. */
  datatype Fault =
    | NullSelection   // `this.$selected.next()` while `$selected` is still null
    | UndefinedDuel   // `this.duels[-1].id`: `index()` of an empty selection is -1

  datatype Outcome = Done | Threw(fault: Fault)

  const KEY_DOWN := 40
  const KEY_UP := 38

  /** Everything the view instance holds. `ready` is true once the load callback has
      run, i.e. once the click and key handlers are attached. */
  datatype ViewState = ViewState(
    summoner: string,
    ready: bool,
    duels: seq<Duel>,
    selected: Selection,
    marked: set<nat>,
    emitted: seq<Id>,
    content: seq<Token>)

  datatype Step = Step(state: ViewState, outcome: Outcome)

  /** `index()`: the position among the siblings, -1 for an empty selection. */
  function IndexOf(e: Elem): int
  {
    match e
    case Item(i) => i
    case NoElement => -1
  }

  /** `next()` among `n` rendered items. */
  function Next(e: Elem, n: nat): (r: Elem)
    ensures r.Item? <==> e.Item? && e.index + 1 < n
    ensures r.Item? ==> r.index == e.index + 1
  {
    match e
    case Item(i) => if i + 1 < n then Item(i + 1) else NoElement
    case NoElement => NoElement
  }

  /** `prev()` among the rendered items. */
  function Prev(e: Elem): (r: Elem)
    ensures r.Item? <==> e.Item? && e.index > 0
    ensures r.Item? ==> r.index + 1 == e.index
  {
    match e
    case Item(i) => if i > 0 then Item(i - 1) else NoElement
    case NoElement => NoElement
  }

  /** A selection that exists in a list of `n` rendered items. */
  predicate Exists(e: Elem, n: nat)
  {
    e.Item? ==> e.index < n
  }

  /** Positions that carry the `selected` class when `sel` is the retained selection. */
  function Marks(sel: Selection): set<nat>
  {
    if sel.Selected? && sel.elem.Item? then {sel.elem.index} else {}
  }

  function Ids(ds: seq<Duel>): set<Id>
  {
    set d | d in ds :: d.id
  }

  /** The state the constructor leaves: nothing loaded, nothing selected. */
  function Initial(summoner: string): ViewState
  {
    ViewState(summoner, false, [], Null, {}, [], [])
  }

  /** The invariant of a view instance: before the load nothing has happened; after it
      the mount shows the rendered list, the selection is null or within the list,
      exactly the selected item carries the marker, and every notification names a
      loaded duel. */
  predicate Inv(s: ViewState)
  {
    && (!s.ready ==> s == Initial(s.summoner))
    && (s.ready ==> s.content == Render(s.summoner, s.duels))
    && (s.selected.Selected? ==> Exists(s.selected.elem, |s.duels|))
    && s.marked == Marks(s.selected)
    && (forall x :: x in s.emitted ==> x in Ids(s.duels))
  }

  /** The load callback: store the duels, render them, then attach the handlers. */
  function Loaded(s: ViewState, ds: seq<Duel>): (r: ViewState)
    requires Inv(s) && !s.ready
    ensures Inv(r) && r.ready
    ensures r.duels == ds && r.summoner == s.summoner
    ensures r.selected == Null && r.marked == {} && r.emitted == []
  {
    s.(duels := ds, content := Render(s.summoner, ds), ready := true)
  }

  /** `selectElement`: unmark the old selection, mark the target, retain it, then
      emit the id of the duel at the target's position. */
  function Select(s: ViewState, t: Elem): (r: Step)
    requires Inv(s) && s.ready && Exists(t, |s.duels|)
    ensures Inv(r.state)
    ensures r.state.selected == Selected(t)
    ensures r.state.(selected := s.selected, marked := s.marked, emitted := s.emitted) == s
    ensures t.Item? ==>
      (r.state.marked == {t.index} && r.state.emitted == s.emitted + [s.duels[t.index].id]
       && r.outcome == Done)
    ensures t.NoElement? ==>
      (r.state.marked == {} && r.state.emitted == s.emitted && r.outcome == Threw(UndefinedDuel))
  {
    var unmarked :=
      if s.selected.Selected? && s.selected.elem.Item? then s.marked - {s.selected.elem.index}
      else s.marked;
    var marked := if t.Item? then unmarked + {t.index} else unmarked;
    var s' := s.(marked := marked, selected := Selected(t));
    var at := IndexOf(t);
    if 0 <= at < |s.duels| then
      assert s.duels[at] in s.duels;
      Step(s'.(emitted := s.emitted + [s.duels[at].id]), Done)
    else
      Step(s', Threw(UndefinedDuel))
  }

  /** `clicked`: a click on the i-th rendered item selects it. A click anywhere else,
      or before the handlers are attached, reaches no handler. */
  function ClickItem(s: ViewState, i: nat): (r: Step)
    requires Inv(s)
    ensures Inv(r.state)
    ensures !s.ready || i >= |s.duels| ==> r == Step(s, Done)
    ensures s.ready && i < |s.duels| ==>
      r.outcome == Done && r.state.selected == Selected(Item(i)) && r.state.marked == {i}
      && r.state.emitted == s.emitted + [s.duels[i].id]
  {
    if s.ready && i < |s.duels| then Select(s, Item(i)) else Step(s, Done)
  }

  /** `key`: down arrow selects the next sibling, up arrow the previous one; other keys,
      and every key before the handlers are attached, do nothing. */
  function PressKey(s: ViewState, code: int): (r: Step)
    requires Inv(s)
    ensures Inv(r.state)
    ensures !s.ready || (code != KEY_DOWN && code != KEY_UP) ==> r == Step(s, Done)
    ensures s.ready && (code == KEY_DOWN || code == KEY_UP) && s.selected == Null ==>
      r == Step(s, Threw(NullSelection))
  {
    if !s.ready then Step(s, Done)
    else if code == KEY_DOWN then
      if s.selected == Null then Step(s, Threw(NullSelection))
      else Select(s, Next(s.selected.elem, |s.duels|))
    else if code == KEY_UP then
      if s.selected == Null then Step(s, Threw(NullSelection))
      else Select(s, Prev(s.selected.elem))
    else Step(s, Done)
  }

  /** User input reaching the view. */
  datatype Input = ClickOn(index: nat) | KeyUp(code: int)

  function Handle(s: ViewState, e: Input): (r: Step)
    requires Inv(s)
    ensures Inv(r.state)
    ensures r.state.(selected := s.selected, marked := s.marked, emitted := s.emitted) == s
    ensures s.emitted <= r.state.emitted && |r.state.emitted| <= |s.emitted| + 1
  {
    match e
    case ClickOn(i) => ClickItem(s, i)
    case KeyUp(code) => PressKey(s, code)
  }

  /** The state after a sequence of inputs, each handled to completion in turn. An
      exception in one handler leaves the state it reached and does not stop later
      events. */
  function Run(s: ViewState, es: seq<Input>): (r: ViewState)
    requires Inv(s)
    ensures Inv(r)
    decreases |es|
  {
    if es == [] then s else Run(Handle(s, es[0]).state, es[1..])
  }

  /** At most one item carries the `selected` marker, and it is the retained one. */
  lemma AtMostOneMarked(s: ViewState)
    requires Inv(s)
    ensures |s.marked| <= 1
    ensures forall i :: i in s.marked ==> s.selected == Selected(Item(i)) && i < |s.duels|
  {
  }

  /** Down arrow from item i selects item i + 1 and notifies its id. */
  lemma KeyDownMovesToNext(s: ViewState, i: nat)
    requires Inv(s) && s.ready && s.selected == Selected(Item(i)) && i + 1 < |s.duels|
    ensures PressKey(s, KEY_DOWN).outcome == Done
    ensures PressKey(s, KEY_DOWN).state.selected == Selected(Item(i + 1))
    ensures PressKey(s, KEY_DOWN).state.marked == {i + 1}
    ensures PressKey(s, KEY_DOWN).state.emitted == s.emitted + [s.duels[i + 1].id]
  {
  }

  /** Up arrow from item i selects item i - 1 and notifies its id. */
  lemma KeyUpMovesToPrevious(s: ViewState, i: nat)
    requires Inv(s) && s.ready && s.selected == Selected(Item(i)) && 0 < i
    ensures PressKey(s, KEY_UP).outcome == Done
    ensures PressKey(s, KEY_UP).state.selected == Selected(Item(i - 1))
    ensures PressKey(s, KEY_UP).state.marked == {i - 1}
    ensures PressKey(s, KEY_UP).state.emitted == s.emitted + [s.duels[i - 1].id]
  {
  }

  /** Stepping past either end selects the empty jQuery set: the old item loses its
      marker, nothing is notified, and `this.duels[-1].id` throws. */
  lemma KeyPastEitherEndThrows(s: ViewState, code: int)
    requires Inv(s) && s.ready && s.selected.Selected?
    requires || (code == KEY_DOWN && s.selected.elem.Item? && s.selected.elem.index + 1 == |s.duels|)
             || (code == KEY_UP && s.selected.elem == Item(0))
             || ((code == KEY_DOWN || code == KEY_UP) && s.selected.elem == NoElement)
    ensures PressKey(s, code).outcome == Threw(UndefinedDuel)
    ensures PressKey(s, code).state.selected == Selected(NoElement)
    ensures PressKey(s, code).state.marked == {}
    ensures PressKey(s, code).state.emitted == s.emitted
  {
  }

  /** Inputs never change the summoner, the lifecycle flag, the list or the markup. */
  lemma {:induction false} RunKeepsList(s: ViewState, es: seq<Input>)
    requires Inv(s)
    ensures Run(s, es).summoner == s.summoner && Run(s, es).ready == s.ready
    ensures Run(s, es).duels == s.duels && Run(s, es).content == s.content
    decreases |es|
  {
    if es != [] {
      RunKeepsList(Handle(s, es[0]).state, es[1..]);
    }
  }

  /** Before the load callback has run no handler is attached: inputs change nothing. */
  lemma {:induction false} RunBeforeLoadIsInert(s: ViewState, es: seq<Input>)
    requires Inv(s) && !s.ready
    ensures Run(s, es) == s
    decreases |es|
  {
    if es != [] {
      RunBeforeLoadIsInert(Handle(s, es[0]).state, es[1..]);
    }
  }

  /** Notifications are only ever appended, at most one per input. */
  lemma {:induction false} RunAppendsToLog(s: ViewState, es: seq<Input>)
    requires Inv(s)
    ensures s.emitted <= Run(s, es).emitted
    ensures |Run(s, es).emitted| <= |s.emitted| + |es|
    decreases |es|
  {
    if es != [] {
      RunAppendsToLog(Handle(s, es[0]).state, es[1..]);
    }
  }

  /** The worked scenario: player "A" won duel 1 as creator and lost duel 2 to the
      target; item 1 shows the cup, item 2 does not; clicking item 1 and pressing the
      down arrow selects item 2 and notifies ids 1 then 2. */
  lemma Scenario()
    ensures var ds := [Duel(1, Creator, "A", "B"), Duel(2, Target, "A", "C")];
            var s0 := Loaded(Initial("A"), ds);
            var s2 := Run(s0, [ClickOn(0), KeyUp(KEY_DOWN)]);
            && Entries(s0.content) == Some([true, false])
            && s2.selected == Selected(Item(1)) && s2.marked == {1} && s2.emitted == [1, 2]
  {
    var ds := [Duel(1, Creator, "A", "B"), Duel(2, Target, "A", "C")];
    var s0 := Loaded(Initial("A"), ds);
    RenderEntries("A", ds);
    var flags := Entries(s0.content).value;
    assert flags == [true, false];
    var s1 := ClickItem(s0, 0).state;
    var s2 := PressKey(s1, KEY_DOWN).state;
    assert Run(s0, [ClickOn(0), KeyUp(KEY_DOWN)]) == Run(s1, [KeyUp(KEY_DOWN)]);
    assert Run(s1, [KeyUp(KEY_DOWN)]) == Run(s2, []);
  }

  /** The view instance. Its methods are the source's handlers; each is specified by
      the step function of the same name above. */
  class Duels {
    const summonerName: string
    var ready: bool
    var duels: seq<Duel>
    var selected: Selection
    var marked: set<nat>
    var emitted: seq<Id>
    var content: seq<Token>

    function State(): ViewState
      reads this
    {
      ViewState(summonerName, ready, duels, selected, marked, emitted, content)
    }

    ghost predicate Valid()
      reads this
    {
      Inv(State())
    }

    /** The constructor; the fetch it starts is outside the model, and its completion
        is `OnLoaded`. */
    constructor (summonerName: string)
      ensures Valid() && State() == Initial(summonerName)
    {
      this.summonerName := summonerName;
      ready := false;
      duels := [];
      selected := Null;
      marked := {};
      emitted := [];
      content := [];
    }

    /** The completion callback of the fetch: store, show, then attach handlers. */
    method OnLoaded(ds: seq<Duel>)
      requires Valid() && !ready
      modifies this
      ensures Valid() && State() == Loaded(old(State()), ds)
    {
      duels := ds;
      content := Render(summonerName, duels);
      ready := true;
    }

    method SelectElement(t: Elem) returns (outcome: Outcome)
      requires Valid() && ready && Exists(t, |duels|)
      modifies this
      ensures Valid() && Step(State(), outcome) == Select(old(State()), t)
    {
      if selected.Selected? && selected.elem.Item? {
        marked := marked - {selected.elem.index};
      }
      if t.Item? {
        marked := marked + {t.index};
      }
      selected := Selected(t);
      var at := IndexOf(t);
      if 0 <= at < |duels| {
        emitted := emitted + [duels[at].id];
        outcome := Done;
      } else {
        outcome := Threw(UndefinedDuel);
      }
    }

    /** A click on the i-th child of the mount point. */
    method Clicked(i: nat) returns (outcome: Outcome)
      requires Valid()
      modifies this
      ensures Valid() && Step(State(), outcome) == ClickItem(old(State()), i)
    {
      if ready && i < |duels| {
        outcome := SelectElement(Item(i));
      } else {
        outcome := Done;
      }
    }

    /** A keyup on the document with `e.which == code`. */
    method Key(code: int) returns (outcome: Outcome)
      requires Valid()
      modifies this
      ensures Valid() && Step(State(), outcome) == PressKey(old(State()), code)
    {
      if !ready {
        outcome := Done;
      } else if code == KEY_DOWN {
        if selected == Null {
          outcome := Threw(NullSelection);
        } else {
          outcome := SelectElement(Next(selected.elem, |duels|));
        }
      } else if code == KEY_UP {
        if selected == Null {
          outcome := Threw(NullSelection);
        } else {
          outcome := SelectElement(Prev(selected.elem));
        }
      } else {
        outcome := Done;
      }
    }
  }
}
