/** Markup produced by the duel list view: `render`, `renderDuel` and `renderCup`.
    The HTML text is abstracted to a sequence of tokens that keeps its structure
    (list item, optional cup badge, two participant figures, "vs"), and leaves out
    whitespace, the SVG and the base64 images. */
module DuelsMarkup {

  type Id = int

  /** Which side of a duel won; `duel.winner` names one of the two participant fields. */
  datatype Role = Creator | Target

  datatype Duel = Duel(id: Id, winner: Role, creator: string, target: string)

  /** `duel[side]`: the participant stored under the field that `side` names. */
  function Participant(d: Duel, side: Role): string
  {
    match side
    case Creator => d.creator
    case Target => d.target
  }

  /** `duel[duel.winner]` */
  function Winner(d: Duel): string
  {
    Participant(d, d.winner)
  }

  /** The opposite side. */
  function Other(side: Role): Role
  {
    match side
    case Creator => Target
    case Target => Creator
  }

  datatype Token =
    | ItemOpen                              // <li class="duel">
    | Cup                                   // <div class="cup">…</div>
    | Figure(side: Role, caption: string)   // <figure class="summoner creator|target">…</figure>
    | Versus                                // <span class="vs">vs</span>
    | ItemClose                             // </li>

  const CREATOR_CAPTION := "ngryman"
  const TARGET_CAPTION := "Vocyfera2"

  /** Everything of an item after the optional cup: both figures, with fixed captions. */
  const FIGURES: seq<Token> :=
    [Figure(Creator, CREATOR_CAPTION), Versus, Figure(Target, TARGET_CAPTION), ItemClose]

  /** `renderCup`: the cup badge when the configured summoner is the duel's winner. */
  function RenderCup(summoner: string, d: Duel): (r: seq<Token>)
    ensures r != [] <==> summoner == Winner(d)
    ensures r == [] || r == [Cup]
  {
    if summoner == Winner(d) then [Cup] else []
  }

  /** `renderDuel`: one list item. */
  function RenderDuel(summoner: string, d: Duel): (r: seq<Token>)
    ensures |r| == 5 + |RenderCup(summoner, d)|
    ensures r[0] == ItemOpen && r[|r| - 1] == ItemClose
    ensures r[1..|r| - 4] == RenderCup(summoner, d)
    ensures r[|r| - 4..] == FIGURES
    ensures Cup in r <==> summoner == Winner(d)
  {
    [ItemOpen] + RenderCup(summoner, d) + FIGURES
  }

  /** `Array.prototype.reduce` with the callback `(markup, duel) => markup + renderDuel(duel)`. */
  function Reduce(summoner: string, markup: seq<Token>, ds: seq<Duel>): seq<Token>
    decreases |ds|
  {
    if ds == [] then markup
    else Reduce(summoner, markup + RenderDuel(summoner, ds[0]), ds[1..])
  }

  /** `render`: the reduce started from the empty string. */
  function Render(summoner: string, ds: seq<Duel>): (r: seq<Token>)
  {
    Reduce(summoner, [], ds)
  }

  /** Reference definition: the item markups of `ds`, concatenated in list order. */
  function Concat(summoner: string, ds: seq<Duel>): seq<Token>
    decreases |ds|
  {
    if ds == [] then [] else RenderDuel(summoner, ds[0]) + Concat(summoner, ds[1..])
  }

  /** Reading markup back: one flag per list item, telling whether it carries the cup;
      None when the markup is not a sequence of well-formed items. */
  function Entries(m: seq<Token>): Option<seq<bool>>
    decreases |m|
  {
    if m == [] then Some([])
    else if |m| >= 5 && m[..5] == [ItemOpen] + FIGURES then Prepend(false, Entries(m[5..]))
    else if |m| >= 6 && m[..6] == [ItemOpen, Cup] + FIGURES then Prepend(true, Entries(m[6..]))
    else None
  }

  datatype Option<T> = None | Some(value: T)

  function Prepend(b: bool, o: Option<seq<bool>>): Option<seq<bool>>
  {
    match o
    case None => None
    case Some(bs) => Some([b] + bs)
  }

  /** The cup goes only to the winner: when the two participants differ, the loser
      never sees a cup, and the cup shown means the summoner is one of the two. */
  lemma CupOnlyForWinner(summoner: string, d: Duel)
    requires RenderCup(summoner, d) != []
    ensures summoner == d.creator || summoner == d.target
    ensures d.creator != d.target ==> summoner != Participant(d, Other(d.winner))
  {
  }

  /** The item markup does not depend on the participants or the id beyond the cup:
      the figure captions are fixed literals. */
  lemma RenderDuelOnlyDependsOnCup(summoner: string, d1: Duel, d2: Duel)
    ensures RenderDuel(summoner, d1) == RenderDuel(summoner, d2)
        <==> (summoner == Winner(d1)) == (summoner == Winner(d2))
  {
    if RenderDuel(summoner, d1) == RenderDuel(summoner, d2) {
      assert (Cup in RenderDuel(summoner, d1)) == (Cup in RenderDuel(summoner, d2));
    }
  }

  /** The reduce keeps what is already accumulated and appends the items in order. */
  lemma {:induction false} ReduceIsConcat(summoner: string, markup: seq<Token>, ds: seq<Duel>)
    ensures Reduce(summoner, markup, ds) == markup + Concat(summoner, ds)
    decreases |ds|
  {
    if ds != [] {
      ReduceIsConcat(summoner, markup + RenderDuel(summoner, ds[0]), ds[1..]);
      assert markup + RenderDuel(summoner, ds[0]) + Concat(summoner, ds[1..])
          == markup + (RenderDuel(summoner, ds[0]) + Concat(summoner, ds[1..]));
    }
  }

  /** `render` is the concatenation of `renderDuel` over the list, in order;
      the empty list renders as empty markup. */
  lemma RenderIsConcat(summoner: string, ds: seq<Duel>)
    ensures Render(summoner, ds) == Concat(summoner, ds)
    ensures ds == [] ==> Render(summoner, ds) == []
  {
    ReduceIsConcat(summoner, [], ds);
  }

  lemma {:induction false} ConcatAppend(summoner: string, a: seq<Duel>, b: seq<Duel>)
    ensures Concat(summoner, a + b) == Concat(summoner, a) + Concat(summoner, b)
    decreases |a|
  {
    if a != [] {
      assert (a + b)[1..] == a[1..] + b;
      ConcatAppend(summoner, a[1..], b);
    } else {
      assert a + b == b;
    }
  }

  /** Rendering a list split in two is rendering the halves one after the other:
      nothing is reordered or dropped at the seam. */
  lemma RenderAppend(summoner: string, a: seq<Duel>, b: seq<Duel>)
    ensures Render(summoner, a + b) == Render(summoner, a) + Render(summoner, b)
  {
    RenderIsConcat(summoner, a + b);
    RenderIsConcat(summoner, a);
    RenderIsConcat(summoner, b);
    ConcatAppend(summoner, a, b);
  }

  /** One item's markup followed by anything is read back as that item's cup flag. */
  lemma EntriesOfItem(summoner: string, d: Duel, rest: seq<Token>)
    ensures Entries(RenderDuel(summoner, d) + rest)
         == Prepend(summoner == Winner(d), Entries(rest))
  {
    var item := RenderDuel(summoner, d);
    var m := item + rest;
    if summoner == Winner(d) {
      assert item == [ItemOpen, Cup] + FIGURES;
      assert m[..5] != [ItemOpen] + FIGURES by { assert m[1] == Cup; }
      assert m[..6] == item && m[6..] == rest;
    } else {
      assert item == [ItemOpen] + FIGURES;
      assert m[..5] == item && m[5..] == rest;
    }
  }

  lemma {:induction false} EntriesOfConcat(summoner: string, ds: seq<Duel>)
    ensures Entries(Concat(summoner, ds)).Some?
    ensures |Entries(Concat(summoner, ds)).value| == |ds|
    ensures forall i :: 0 <= i < |ds| ==>
      Entries(Concat(summoner, ds)).value[i] == (summoner == Winner(ds[i]))
    decreases |ds|
  {
    if ds != [] {
      EntriesOfConcat(summoner, ds[1..]);
      EntriesOfItem(summoner, ds[0], Concat(summoner, ds[1..]));
      var flags := Entries(Concat(summoner, ds)).value;
      forall i | 0 <= i < |ds|
        ensures flags[i] == (summoner == Winner(ds[i]))
      {
        if i > 0 {
          assert ds[i] == ds[1..][i - 1];
        }
      }
    }
  }

  /** The rendered markup holds exactly one well-formed item per duel, in list order,
      and item i carries the cup exactly when the summoner won duel i. */
  lemma RenderEntries(summoner: string, ds: seq<Duel>)
    ensures Entries(Render(summoner, ds)).Some?
    ensures |Entries(Render(summoner, ds)).value| == |ds|
    ensures forall i :: 0 <= i < |ds| ==>
      Entries(Render(summoner, ds)).value[i] == (summoner == Winner(ds[i]))
  {
    RenderIsConcat(summoner, ds);
    EntriesOfConcat(summoner, ds);
  }
}
