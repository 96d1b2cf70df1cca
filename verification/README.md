# Duel list view, modelled in Dafny

This project models the `Duels` view of the go1v1 web client (`src/views/duels.js`).
The view asks the data store for the duels of a summoner. When they arrive, it renders
them as a list of items and attaches a click handler on the items and a keyup handler
on the document. After that, a single item can be selected by clicking it or by moving
the selection with the down (40) and up (38) arrow keys. Each selection emits a
`selected` event carrying the id of the duel at the selected position.

Two modules:

- `DuelsMarkup` (`markup.dfy`) covers the pure rendering: `renderCup`, `renderDuel` and
  `render`, the last one as the `reduce` it is. Markup is a sequence of tokens that
  keeps the structure of the HTML: the list item, the optional cup badge, the creator
  figure, "vs", the target figure and the closing tag. The two figure captions are the
  fixed literals of the template. A reader function `Entries` turns markup back into one
  cup flag per item, so the lemmas can say that rendering yields one item per duel, in
  order, with the cup exactly where the summoner won.
- `DuelsView` (`view.dfy`) covers the lifecycle and the selection state machine. The
  class `Duels` has the view's fields: `duels`, `selected` (that is `$selected`),
  `marked` (the positions carrying the `selected` class), `emitted` (the `selected`
  events), `ready` (the load callback has run and the handlers are attached) and
  `content` (what `show()` wrote into the mount point). Each of its methods is specified
  by a pure step function on a `ViewState` value: `Loaded`, `Select`, `ClickItem` and
  `PressKey`. The lemmas are proved about those functions and about `Run`, which
  handles a sequence of inputs. The invariant `Inv` says four things:
  - Before the load, nothing has changed.
  - After the load, the mount shows `Render` of the duels.
  - The selection is null or lies within the list, and exactly the selected item is marked.
  - Every emitted id is the id of a loaded duel.

The edge cases follow the code:

- A jQuery selection is an item position or the empty set (`NoElement`).
- Pressing an arrow key while `$selected` is still `null` throws (`NullSelection`) and
  changes nothing.
- Stepping past either end of the list gives `next()`/`prev()` an empty set. `selectElement`
  still removes the marker from the old item and keeps the empty set as `$selected`.
  Then `index()` is -1, so `this.duels[-1].id` throws (`UndefinedDuel`) and nothing is
  emitted. A later arrow key does the same again. A later click selects normally.

## Model

| member | source | states |
|---|---|---|
| DuelsMarkup.RenderCup | src/views/duels.js:44-52 | the cup fragment is non-empty exactly when the summoner equals the participant named by `winner`, and otherwise empty; when present it is a single cup |
| DuelsMarkup.RenderDuel | src/views/duels.js:27-42 | an item opens, holds the cup fragment, then both figures with their fixed captions, then closes; it contains a cup exactly when the summoner won |
| DuelsMarkup.CupOnlyForWinner | src/views/duels.js:44-52 | a cup is shown only if the summoner took part, and never to the loser when the two participants differ |
| DuelsMarkup.RenderDuelOnlyDependsOnCup | src/views/duels.js:27-42 | two duels render to the same item exactly when their cup outcome is the same: id and participant names do not appear in the item |
| DuelsMarkup.ReduceIsConcat | src/views/duels.js:20-25 | the reduce keeps the accumulated markup and appends each duel's item in list order |
| DuelsMarkup.RenderIsConcat | src/views/duels.js:20-25 | `render` equals the in-order concatenation of the item markups; the empty list renders as empty markup |
| DuelsMarkup.RenderAppend | src/views/duels.js:20-25 | rendering `a + b` is rendering `a` followed by rendering `b` |
| DuelsMarkup.EntriesOfItem | src/views/duels.js:27-42 | an item's markup is read back as exactly one entry, whose cup flag is the winner test |
| DuelsMarkup.RenderEntries | src/views/duels.js:20-52 | the rendered markup reads back as exactly one entry per duel, in order, entry i carrying the cup exactly when the summoner won duel i |
| DuelsView.Next | src/views/duels.js:60 | `next()` is the following item when there is one, else the empty set |
| DuelsView.Prev | src/views/duels.js:63 | `prev()` is the preceding item when there is one, else the empty set |
| DuelsView.Loaded | src/views/duels.js:11-17 | the load callback stores the duels, keeps selection, markers and log empty, and leaves a ready state that satisfies the invariant, with the list rendered |
| DuelsView.Select | src/views/duels.js:67-74 | after `selectElement(t)` the selection is `t`, only `t` carries the marker, and exactly one id, that of duel `t`, is appended; for an empty set no item is marked, nothing is emitted and it throws; list and markup unchanged |
| DuelsView.ClickItem | src/views/duels.js:54-56 | a click on item i selects i, marks only i and emits its id once; a click before the load or outside the items changes nothing |
| DuelsView.PressKey | src/views/duels.js:58-65 | keys other than 38 and 40, and all keys before the load, change nothing; an arrow key with a null selection throws and changes nothing; the invariant is kept |
| DuelsView.Handle | src/views/duels.js:15-16 | one input keeps the invariant, leaves list and markup alone and appends at most one notification |
| DuelsView.Run | src/views/duels.js:15-16 | any sequence of inputs keeps the invariant |
| DuelsView.AtMostOneMarked | src/views/duels.js:67-72 | at most one item carries the marker, and it is the selected one |
| DuelsView.KeyDownMovesToNext | src/views/duels.js:59-60 | key 40 on item i with a next item selects and marks i + 1 and emits its id |
| DuelsView.KeyUpMovesToPrevious | src/views/duels.js:62-63 | key 38 on item i > 0 selects and marks i - 1 and emits its id |
| DuelsView.KeyPastEitherEndThrows | src/views/duels.js:58-74 | an arrow key past the last or first item, or from the empty set, clears the marker, keeps the empty set selected, emits nothing and throws |
| DuelsView.RunKeepsList | src/views/duels.js:54-74 | inputs never change the summoner, lifecycle, list or markup |
| DuelsView.RunBeforeLoadIsInert | src/views/duels.js:11-17 | before the load callback runs, no input changes anything |
| DuelsView.RunAppendsToLog | src/views/duels.js:73 | the event log is only appended to, at most one id per input |
| DuelsView.Scenario | src/views/duels.js:20-74 | for duels (1, creator won, A vs B) and (2, target won, A vs C) with summoner A, item 1 has the cup and item 2 does not; clicking item 1 then pressing down selects item 2 and emits 1 then 2 |
| DuelsView.Duels.constructor | src/views/duels.js:5-10 | a new view has nothing loaded, a null selection, no markers and no events |
| DuelsView.Duels.OnLoaded | src/views/duels.js:11-17 | the completion callback moves the state as `Loaded` does |
| DuelsView.Duels.SelectElement | src/views/duels.js:67-74 | updates markers, selection and log in place as `Select` does, and reports its exception |
| DuelsView.Duels.Clicked | src/views/duels.js:54-56 | updates the state as `ClickItem` does |
| DuelsView.Duels.Key | src/views/duels.js:58-65 | updates the state as `PressKey` does, and reports the exception the handler raises |

## Left out

- The data fetch `Store.duels(summonerName)` and its promise are not modelled. Its completion is the method `OnLoaded`. A rejected fetch has no handler in the code, so the callback never runs and the view stays in its initial state. `RunBeforeLoadIsInert` covers that state. There is no separate "failed" lifecycle state, because the code has none. The promise resolves at most once, so `OnLoaded` requires that the view is not yet ready.
- The base class `View` and its `show` and `emit` (from `go1v1-lib`) are not part of this model. `show()` is assumed to write `render()` into the mount point (`content`). `emit('selected', id)` is modelled as appending `id` to `emitted`.
- jQuery and the DOM are abstracted to list positions. This covers event delegation to `.duel` items, the document-level keyup listener, `addClass`/`removeClass`, `next`/`prev` and `index`. The mount point is assumed to hold only the rendered items. A click that does not land on an item never reaches the handler, so `ClickItem` treats an index past the list as no input.
- The listeners are never removed in the code, so the model has no teardown.
- The literal HTML is not modelled: whitespace, the SVG cup and the base64 images. The markup keeps only its structure and the two fixed figure captions.
- `winner` is a two-valued role here. In the code, a `winner` naming some other field would make `duel[duel.winner]` undefined, and no cup would show. The model cannot express such a record.
- At the ends of the list, and for a key pressed before any selection, the model follows the code, which throws. A described policy of "no move at the boundary" and "a defined starting item" is not what the code does.
- The integer width of ids and key codes is not modelled: ids are unbounded integers and `e.which` any integer.
