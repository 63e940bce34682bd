# A verified model of the duel server's field, room, codecs, clock, handlers and decks

The project models the parts of the server that keep state over long message streams or turn
structured values into bytes and back, and proves what they keep. `dafny verify dfyconfig.toml`
checks all of it. Every induction is written out: where Dafny would try one by itself, the lemma switches that off.

**The duel field** (`Board.dfy` to `Rebuilds.dfy`). `Board` is the field as a value: an arena of cards under keys that
are never reused, ten lists, four rows of slots, materials under hosts, three pointer relations
and the redundant back-pointers of each card. `Step` says what each message does to it, branch by branch.
The class `FieldState.Field` holds the same parts as mutable fields and runs the loops of `field.rs`;
each of its methods is proved to compute the function of the same name. `Evolution.Legal` says which
messages the duel engine may send on a given board; everything below it is proved for every legal run:

- `Placement` and `Zoning` prove how each small change of the arena or of one zone affects the invariant `Inv`, with
  the cards that are momentarily nowhere as a parameter; `Moves`, `Updates`, `Deals`, `SetCards` and `Reloads` put them
  together per message; `Runs` states the results over whole runs.
- `ExtraDeck`, `Faces`, `ExtraExactness` and `ExtraRuns` prove when the extra deck stays in order, `Exactness` says exactly when the properties that are
  not always true hold, and `Effects`, `Ties`, `Records`, `Rebuilds` and `Births` say what each message does to places, looks and
  relations in terms of the cards before and after, independently of the steps the handler takes. `BrokenRuns` holds short runs on which those properties fail.

**The room** (`Slab.dfy`, `Room.dfy`, `RoomEvents.dfy`, `RoomState.dfy`). Two sets of tables, seats and channels, addressed by slab keys that the free
list hands out again. They stay in lock step through joins, seat changes, kicks, leaving and host transfer; `RoomEvents` tells each request by the seats alone.

**The wire codecs** (`Wire.dfy`, `Query.dfy`, `Response.dfy`, `ResponseBytes.dfy`, `Replay.dfy`). Writers and parsers over a cursor with a buffer, each proved
against an encoding and a decoding function, those against each other, and byte by byte against what stands where.

**The duel clock** (`Clock.dfy`), as three plugins keep it together, with a ledger that balances over every interleaving.

**The handler chain** (`Handlers.dfy`): a sorted, abortable fold over a response monoid.

**Decks and limit lists** (`Text.dfy`, `Deck.dfy`, `DeckText.dfy`, `DeckLimits.dfy`, `LFList.dfy`, `HashVectors.dfy`): in-place filtering, early-exit checks
against declarative limits, the text format, and the hash kept line by line.

Where the code and its own tests disagree the model follows the code: `#extra` lines go to the extra deck
(`ygopro-data/src/data/deck.rs:162`), although the test at lines 339-346 expects them in the main deck.

## Model

| member | source | states |
|---|---|---|
| `Runs.StepKeeps` | ygopro-data/src/field.rs:257-312 | every legal message keeps the invariant that ties zones, back-pointers and relations together; without a re-targeting equip record it keeps `equipped` exact, without a material leaving the board it keeps materials numbered |
| `Runs.RunKeeps` | ygopro-data/src/field.rs:257-312 | the invariant holds after every run of legal messages |
| `Runs.EachCardOnce` | ygopro-data/src/field.rs:324-477 | on every legal run each live key lies on exactly one spot (list index, slot or material index), and every key stored on a spot is live |
| `Runs.OwnAddress` | ygopro-data/src/field.rs:357-477 | on every legal run a zone card carries its own player, zone and index, is no material, and `get_card` at that stored address finds it |
| `Runs.RelationsMatch` | ygopro-data/src/field.rs:485-612 | on every legal run `card_target`/`owner_target` and `overlayed`/`overlay_target` are converse over live cards, and an equip target is live and lists the card |
| `Runs.CardsConserved` | ygopro-data/src/field.rs:930-1061 | moves between places, swaps, draws, shuffles, deck reversals and grave swaps keep the live keys; a card that appears adds exactly one fresh key; a card that leaves removes exactly itself and its materials |
| `Runs.EquippedMeansEquipped` | ygopro-data/src/field.rs:505-567 | on legal runs without a re-targeting equip record every card listed in `equipped` is live and equipped to the card that lists it |
| `Runs.MaterialsNumbered` | ygopro-data/src/field.rs:579-612 | on legal runs in which no material moves straight to Limbo and no host gets more than 256 materials, every material is numbered by its index |
| `ExtraRuns.ExtraDeckOrder` | ygopro-data/src/field.rs:436-468 | on legal runs of safe messages `extra` is other cards first and then exactly `extra_pendulum_count` face-up pendulum cards |
| `ExtraRuns.StepSortedExactly` | ygopro-data/src/field.rs:257-312 | any legal message keeps sorted extra decks sorted if and only if it is safe: an update by what its records make of type and position, a tag swap and a reload by the count they announce; every other message always is |
| `ExtraRuns.RunSortedExactly` | ygopro-data/src/field.rs:257-312 | on a legal run the extra decks are sorted all along if and only if every message of it is safe |
| `ExtraExactness.UpdateSortedExactly` | ygopro-data/src/field.rs:513-559 | an update keeps the order if and only if the face it tells for each extra-deck card is on the same side of being face-up pendulum as the old one |
| `ExtraExactness.TagSwapSortedExactly` | ygopro-data/src/field.rs:1226-1244 | a tag swap keeps the order if and only if the announced count is that of the face-up pendulum cards left, with none left under new cards |
| `ExtraExactness.ReloadSortedExactly` | ygopro-data/src/field.rs:1246-1269 | a reload leaves the order right if and only if both announced counts are zero |
| `Faces.UpdateGivesFaces` | ygopro-data/src/field.rs:761-772 | after an update message every card in a zone lies where it was, with the code, type and position folded from the records addressed to its place; all other cards keep theirs |
| `BrokenRuns.FlipBreaksOrder` | ygopro-data/src/field.rs:513-559 | a legal run of two messages after which the extra deck is out of order |
| `BrokenRuns.CountBreaksOrder` | ygopro-data/src/field.rs:1226-1269 | a tag swap and a reload, each legal on an empty field, after which the extra deck is out of order |
| `BrokenRuns.SwapBreaks` | ygopro-data/src/field.rs:1054-1061 | a start and a swap of deck indices 0 and 1 after which the back-pointers are wrong |
| `BrokenRuns.RetargetBreaks` | ygopro-data/src/field.rs:561-567 | a legal run of three messages after which a card lists as equipped one that is equipped to another |
| `BrokenRuns.MaterialGoneBreaks` | ygopro-data/src/field.rs:944-953 | a legal run of three messages after which a material is not numbered by its index |
| `BrokenRuns.CrowdBreaks` | ygopro-data/src/field.rs:579-604 | a legal run of two messages after which 257 materials are not numbered by their index |
| `ExtraRuns.ConfirmNamesTop` | ygopro-data/src/field.rs:917-928 | the codes of a confirmation go to the cards above the bottom of the non-pendulum prefix, from its top down; no pendulum card and no other zone changes |
| `SetCards.ShuffleLands` | ygopro-data/src/field.rs:842-886 | after a set-card shuffle every selected card with a new position lies there, the occupants of the row are the same ones, slots that were not selected keep theirs, and the invariant holds |
| `Exactness.MoveNumbersExactly` | ygopro-data/src/field.rs:930-1040 | a legal move keeps materials numbered by index if and only if it is not a material with later siblings going to Limbo and no host ends with more than 256 materials |
| `Exactness.OverlayQueryNumbersExactly` | ygopro-data/src/field.rs:579-612 | a record of material codes keeps the numbering if and only if it names at most 256 of them |
| `Exactness.EquipQueryExactly` | ygopro-data/src/field.rs:561-567 | an equip record keeps `equipped` exact if and only if the card was not equipped to a different card |
| `Exactness.SwapInListExactly` | ygopro-data/src/field.rs:1054-1061 | a swap inside one list keeps the invariant if and only if the first index is the larger one: otherwise the first removal shifts the second |
| `Effects.MoveAcrossArrives` | ygopro-data/src/field.rs:954-975 | the card at the old address arrives at the new one (its slot, an index of the deck, or the end of another pile) with the position and code given; every other card, in order, and every other host stays |
| `Effects.MoveInArrives` | ygopro-data/src/field.rs:934-943 | a card that appears has a fresh key, arrives where the move says with its code; everything there was stays |
| `Effects.MoveFromUnderArrives` | ygopro-data/src/field.rs:1005-1019 | the material at the given index arrives in the zone; its host keeps the others in order; nothing else moves |
| `Effects.MoveUnderArrives` | ygopro-data/src/field.rs:976-1004 | the card becomes the last material of its host and lies in no zone any more; every other card and host stays |
| `Effects.MoveBetweenArrives` | ygopro-data/src/field.rs:1020-1040 | the material leaves one host and is last under the other, or last under the same one; no zone changes |
| `Effects.SwapTrades` | ygopro-data/src/field.rs:1054-1061 | two slot cards trade places and no other cell of any zone changes |
| `Effects.DrawMoves` | ygopro-data/src/field.rs:1116-1129 | the top cards of the deck, as many as are named and there, end up in hand from the top down; the rest of the deck and all other zones stay |
| `Effects.SwapGraveDeckMoves` | ygopro-data/src/field.rs:815-840 | the deck becomes the grave unchanged, the grave becomes the deck in order without its extra-deck cards, which join the extra deck; no other zone changes |
| `Effects.ReverseDecksMoves` | ygopro-data/src/field.rs:888-894 | both decks are turned over and nothing else, and turning over again restores them |
| `Effects.EquipMoves` | ygopro-data/src/field.rs:1131-1139 | equipping changes one equip target and moves the card from the `equipped` set of its old target to that of the new one |
| `Effects.TargetChangesOnePair` | ygopro-data/src/field.rs:1141-1161 | adding or cancelling a target changes exactly one pair of the relation, on both of its sides |
| `Effects.FlippedShows` | ygopro-data/src/field.rs:1063-1070 | a flip summon gives exactly the addressed card the code and position of the message and keeps its relations and place; every other card is untouched |
| `Effects.FlippedDownTargetsNothing` | ygopro-data/src/field.rs:1042-1052 | a face-up card turned face-down targets nothing and is targeted by nothing |
| `Effects.OverlayQueryNames` | ygopro-data/src/field.rs:579-604 | after a record of material codes the host has exactly that many materials, named in order, and those it had stay first |
| `Rebuilds.TagSwapRebuilds` | ygopro-data/src/field.rs:1226-1244 | deck, hand and extra deck have the announced lengths, keep the cards at their bottom, carry the announced codes; the top of the deck has its code; no other zone, no count of the other player, no other code and no type or position of a card that is left changes |
| `Rebuilds.ReloadRebuilds` | ygopro-data/src/field.rs:682-749 | a reloaded field has, for both players, a card exactly in the slots announced with the position and number of materials given, lists of the announced lengths and the announced pendulum count, whatever was there before |
| `Placement.DestroyKeeps` | ygopro-data/src/field.rs:324-355 | destroying a card that lies in no zone, or a material, keeps the invariant: all relations forget it and its materials |
| `Zoning.AddCardKeeps` | ygopro-data/src/field.rs:397-452 | adding a card that lies nowhere to a free place keeps the invariant and files the card |
| `Zoning.RemoveCardKeeps` | ygopro-data/src/field.rs:454-477 | removing the card at an address takes exactly that card off the board and changes no relation |
| `Moves.MoveKeeps` | ygopro-data/src/field.rs:930-1040 | every legal move, in each of its six branches, keeps the invariant |
| `Updates.UpdateOverlayCardsKeep` | ygopro-data/src/field.rs:579-612 | creating, naming and dropping materials keeps the invariant |
| `Updates.UpdateZoneKeeps` | ygopro-data/src/field.rs:761-766 | a list of update records keeps the invariant although records create and destroy materials |
| `Deals.SwapKeeps` | ygopro-data/src/field.rs:1054-1061 | swapping two slot cards, or a slot card with itself, keeps the invariant |
| `Deals.DrawKeeps` | ygopro-data/src/field.rs:1116-1129 | drawing keeps the invariant |
| `Deals.SwapGraveDeckKeeps` | ygopro-data/src/field.rs:815-840 | swapping grave and deck keeps the invariant |
| `Reloads.ResizeZoneKeeps` | ygopro-data/src/field.rs:644-680 | a resized list has exactly the length asked for, keeps the cards at its bottom and the invariant; no other zone changes |
| `Reloads.StartKeeps` | ygopro-data/src/field.rs:619-642 | the start of a duel satisfies the invariant and every list has the announced length |
| `Reloads.ReloadKeeps` | ygopro-data/src/field.rs:682-749 | a reloaded field satisfies the invariant, its materials are numbered and `equipped` is exact |
| `FieldState.Field.constructor` | ygopro-data/src/field.rs:252-254 | a new field is the empty board |
| `FieldState.Field.Evolve` | ygopro-data/src/field.rs:257-312 | every message takes the field from its old view to `Step` of it; a legal one keeps the invariant |
| `FieldState.Replay` | ygopro-data/src/field.rs:252-312 | a field that takes any legal stream of messages one after the other satisfies the invariant |
| `FieldState.Field.Clear` | ygopro-data/src/field.rs:314-318 | updates the fields in place to exactly the state of the specification; the field is the empty board again |
| `FieldState.Field.CreateCard` | ygopro-data/src/field.rs:320-322 | updates the fields in place to exactly the state of the specification; a card with a fresh key, kept apart from every zone |
| `FieldState.Field.DestroyCard` | ygopro-data/src/field.rs:324-355 | updates the fields in place to exactly the state of the specification; the loops over targets, equips and materials leave the arena of the specification; no zone is touched |
| `FieldState.Field.ResetSequence` | ygopro-data/src/field.rs:375-381 | updates the fields in place to exactly the state of the specification; the loop numbers the cards of a list from zero on |
| `FieldState.Field.RemoveFromList` | ygopro-data/src/field.rs:383-391 | updates the fields in place to exactly the state of the specification; the list closes up and is renumbered |
| `FieldState.Field.AddCard` | ygopro-data/src/field.rs:397-452 | updates the fields in place to exactly the state of the specification; each zone takes the card where the specification puts it, counting face-up pendulum cards |
| `FieldState.Field.RemoveCard` | ygopro-data/src/field.rs:454-477 | updates the fields in place to exactly the state of the specification; the zone lets the card go; its location becomes Limbo |
| `FieldState.Field.ClearCardTarget` | ygopro-data/src/field.rs:485-503 | updates the fields in place to exactly the state of the specification; both loops, over targets and over targeting cards, end in a card without relations |
| `FieldState.Field.ReleaseEquip` | ygopro-data/src/field.rs:505-511 | updates the fields in place to exactly the state of the specification; the card leaves the `equipped` set of its target |
| `FieldState.Field.UpdateCardInfo` | ygopro-data/src/field.rs:513-559 | updates the fields in place to exactly the state of the specification; the records are applied one by one, or the card is cleared |
| `FieldState.Field.AddTargetQueries` | ygopro-data/src/field.rs:569-577 | updates the fields in place to exactly the state of the specification; the targets found at the positions are added |
| `FieldState.Field.UpdateOverlayCards` | ygopro-data/src/field.rs:579-604 | updates the fields in place to exactly the state of the specification; the loops create, name and drop materials as the specification does |
| `FieldState.Field.FillInitial` | ygopro-data/src/field.rs:619-642 | updates the fields in place to exactly the state of the specification; the loop pushes face-down cards |
| `FieldState.Field.ResizeZone` | ygopro-data/src/field.rs:644-680 | updates the fields in place to exactly the state of the specification; the loop terminates, since each round is one card nearer to `count` and destroying a card leaves the lists alone |
| `FieldState.Field.LoadPlayerField` | ygopro-data/src/field.rs:682-749 | updates the fields in place to exactly the state of the specification; the loops over slots and counts build the board of the specification |
| `FieldState.Field.Start` | ygopro-data/src/field.rs:751-759 | updates the fields in place to exactly the state of the specification; an empty board with four filled lists |
| `FieldState.Field.UpdateData` | ygopro-data/src/field.rs:761-766 | updates the fields in place to exactly the state of the specification; each record goes to the card found at its index at that moment |
| `FieldState.Field.SwapGraveDeck` | ygopro-data/src/field.rs:815-840 | updates the fields in place to exactly the state of the specification; deals the old grave out while the lists are already exchanged |
| `FieldState.Field.ShuffleSetCard` | ygopro-data/src/field.rs:842-886 | updates the fields in place to exactly the state of the specification; selects and hides first, then moves card by card |
| `FieldState.Field.ReverseDeck` | ygopro-data/src/field.rs:888-894 | updates the fields in place to exactly the state of the specification; reverses and renumbers both decks and flips the flag |
| `FieldState.Field.ConfirmExtraTop` | ygopro-data/src/field.rs:917-928 | updates the fields in place to exactly the state of the specification; the loop from the top index down |
| `FieldState.Field.MoveIn` | ygopro-data/src/field.rs:934-943 | updates the fields in place to exactly the state of the specification, on found and missing cards alike |
| `FieldState.Field.MoveOut` | ygopro-data/src/field.rs:944-953 | updates the fields in place to exactly the state of the specification, on found and missing cards alike |
| `FieldState.Field.MoveAcross` | ygopro-data/src/field.rs:954-975 | updates the fields in place to exactly the state of the specification, on found and missing cards alike |
| `FieldState.Field.MoveUnder` | ygopro-data/src/field.rs:976-1004 | updates the fields in place to exactly the state of the specification, on found and missing cards alike |
| `FieldState.Field.MoveFromUnder` | ygopro-data/src/field.rs:1005-1019 | updates the fields in place to exactly the state of the specification, on found and missing cards alike |
| `FieldState.Field.MoveBetween` | ygopro-data/src/field.rs:1020-1040 | updates the fields in place to exactly the state of the specification, on found and missing cards alike |
| `FieldState.Field.PositionChange` | ygopro-data/src/field.rs:1042-1052 | updates the fields in place to exactly the state of the specification, on found and missing cards alike |
| `FieldState.Field.Swap` | ygopro-data/src/field.rs:1054-1061 | updates the fields in place to exactly the state of the specification, on found and missing cards alike |
| `FieldState.Field.Draw` | ygopro-data/src/field.rs:1116-1129 | updates the fields in place to exactly the state of the specification, on found and missing cards alike |
| `FieldState.Field.Equip` | ygopro-data/src/field.rs:1131-1139 | updates the fields in place to exactly the state of the specification, on found and missing cards alike |
| `FieldState.Field.ChangeTarget` | ygopro-data/src/field.rs:1141-1161 | updates the fields in place to exactly the state of the specification, on found and missing cards alike |
| `FieldState.Field.TagSwap` | ygopro-data/src/field.rs:1226-1244 | updates the fields in place to exactly the state of the specification, on found and missing cards alike |
| `FieldState.Field.ReloadField` | ygopro-data/src/field.rs:1246-1269 | updates the fields in place to exactly the state of the specification, on found and missing cards alike |
| `Room.StepKeeps` | ygopro/src/ygopro_handlers.rs:265-458 | every legal event keeps the room invariant: equal keys and equal next free keys of the seat and channel slabs, one seat per client, each seat routed to its own client |
| `Room.RunKeeps` | ygopro/src/ygopro_handlers.rs:265-647 | the invariant holds after every run of legal events from a new room |
| `Room.StepMoves` | ygopro/src/ygopro_handlers.rs:265-458 | each event changes the seating of at most one client, from one position to one position, and the channel tables follow |
| `Room.HostStays` | ygopro/src/ygopro_handlers.rs:336-458 | until termination a room with clients has its host on an occupied seat; the host moves with its client, or to one who stays |
| `Room.BroadcastReaches` | ygopro/src/duel.rs:236-270 | a message to everybody reaches exactly the clients in the room, each at one position |
| `Room.PositionStaysTrue` | ygopro/src/ygopro_handlers.rs:336-458 | the position a client was told stays its seat until an event of its own, or being kicked, changes it |
| `Room.IntoIsVacant` | ygopro/src/ygopro_handlers.rs:265-395 | nobody is seated on an occupied position |
| `RoomState.Sender.SetPlayer` | ygopro/src/duel.rs:291-294 | the slot list grows to the index if needed and the slot is bound, others unchanged |
| `RoomState.Sender.ClearPlayer` | ygopro/src/duel.rs:297-300 | the slot is unbound, others unchanged |
| `RoomState.Duel.constructor` | ygopro/src/ygopro_handlers.rs:259-263 | a new room is empty and satisfies the invariant |
| `RoomState.Duel.OnClientJoin` | ygopro/src/ygopro_handlers.rs:635-647 | both slabs take the client at the same key, which is the position reported |
| `RoomState.Duel.OnPlayerInfo` | ygopro/src/ygopro_handlers.rs:520-530 | only the name of the client at that position changes |
| `RoomState.Duel.OnJoinGame` | ygopro/src/ygopro_handlers.rs:265-333 | the client leaves the undecided tables, whose `remove` finds it, and takes a seat or an observer key in both table sets; a wrong password or an unknown client changes nothing |
| `RoomState.Duel.OnHsToDuelist` | ygopro/src/ygopro_handlers.rs:336-368 | an observer takes the first vacant seat in both table sets and keeps being host if it was; anybody else stays |
| `RoomState.Duel.OnHsToObserver` | ygopro/src/ygopro_handlers.rs:371-395 | the seat is vacated and both observer slabs take the client at the same key |
| `RoomState.Duel.OnHsKick` | ygopro/src/ygopro_handlers.rs:614-632 | only the host kicks, never itself, and the kicked client leaves both table sets |
| `RoomState.Duel.OnLeaveGame` | ygopro/src/ygopro_handlers.rs:398-458 | the leaver is out of both table sets; host and termination are those of the specification, and every slab removal finds its key |
| `RoomState.Duel.Process` | ygopro/src/ygopro_handlers.rs:265-647 | every legal event takes the room where the specification says and keeps the invariant |
| `Query.SumIsUnion` | ygopro-data/src/data/query.rs:212-275 | for fields in increasing flag order the summed flags are their bitwise union |
| `Query.RecordRoundTrip` | ygopro-data/src/data/query.rs:199-275 | a record comes back from its own bytes, with what follows it untouched, if and only if its fields strictly increase in flag order and its locations are canonical, or it is one `Clear` or `Empty`; its size is the number of bytes |
| `Query.RecordsRoundTrip` | ygopro-data/src/data/query.rs:199-275 | any list of such records survives writing and reading until the input ends |
| `Query.OneReading` | ygopro-data/src/data/query.rs:199-208 | no input can be read as two different lists of records |
| `Query.InfoBack` | ygopro-data/src/data/query.rs:37-47 | a canonical location comes back from its bytes |
| `Query.BackPatch` | ygopro-data/src/data/query.rs:212-275 | writing a placeholder first and filling it in later is writing the right bytes first |
| `Query.WriteRecord` | ygopro-data/src/data/query.rs:212-275 | seeking back to fill in the length leaves exactly the encoded record in the buffer and the cursor behind it; it fails only if the size exceeds 32 bits |
| `Query.ReadRecord` | ygopro-data/src/data/query.rs:199-208 | the cursor parser reads what the specification reads, for any input, and ends behind the announced length |
| `Query.ReadQueries` | ygopro-data/src/data/query.rs:95-137 | reads one field for each flag in increasing order, for any input |
| `Query.ReadAll` | ygopro-data/src/data/query.rs:199-208 | for any input: the records up to the end of the input, the error that broke them off, or the notice that a record leads back to its own start |
| `Query.ReadsAsExactly` | ygopro-data/src/data/query.rs:199-208 | an input can be read as a list of records if and only if the reader yields that list |
| `Query.RecordShortens` | ygopro-data/src/data/query.rs:199-208 | a record leads back to its own start if and only if it announces no length; every other takes at least a byte |
| `Query.EndlessExactly` | ygopro-data/src/data/query.rs:199-208 | reading never ends exactly on the inputs in which a record without a length follows readable ones |
| `Query.ReadsForever` | ygopro-data/src/data/query.rs:199-208 | eight zero bytes are such an input, whatever follows |
| `Query.SumFlags` | ygopro-data/src/data/query.rs:140-168 | the loop adds up the flags of the fields |
| `Query.Mask` | ygopro-data/src/data/query.rs:177-197 | the array is masked in place to the masked record |
| `Query.MaskHides` | ygopro-data/src/data/query.rs:50-60 | masked records are one `Clear` marker on the wire whatever they held |
| `Response.LenIsLength` | ygopro-data/src/data/response.rs:104-183 | `len` is the number of bytes written, for every response |
| `Response.RoundTrip` | ygopro-data/src/data/response.rs:104-258 | for every documented pair of prompt and response, parsing what was written gives the response back if and only if its counted lists have at most 255 elements and it is not the first player's empty place, which reads as a declined place |
| `Response.Unambiguous` | ygopro-data/src/data/response.rs:194-258 | two answers to one prompt, of any length, never share their bytes, apart from the empty place: no list collides with a cancel, a declined chain or a kept order |
| `Response.CountedBack` | ygopro-data/src/data/response.rs:104-155 | a counted list never starts like minus one, and comes back cut to its length modulo 256 |
| `Response.WriteResponse` | ygopro-data/src/data/response.rs:104-155 | the writer puts exactly the encoding at the cursor and moves it by `len` |
| `Response.Parse` | ygopro-data/src/data/response.rs:194-258 | the cursor parser computes the specification for any input and prompt |
| `Response.ReadAllWords` | ygopro-data/src/data/response.rs:194-258 | reads little-endian words until the input ends |
| `Response.Pending.Resolve` | ygopro-data/src/data/response.rs:185-192 | a raw response is replaced by its parse; on an error it stays as it was |
| `Replay.SizeIsLength` | ygopro-data/src/data/replay.rs:234-307 | the announced size equals the length of the encoded body if and only if a tag replay has both tag names |
| `Replay.BodyRoundTrip` | ygopro-data/src/data/replay.rs:234-278 | decoding an encoded body gives it back with raw responses, with nothing left over, if and only if its tag fields fit the flag and every response has at most 255 bytes |
| `Replay.ResolvesBack` | ygopro-data/src/data/replay.rs:264-278 | given their prompts, the raw responses of a decoded replay resolve to the ones recorded |
| `Replay.DeckThereAndBack` | ygopro-data/src/data/replay.rs:202-232 | a deck survives the reversal into a replay deck and back except for its side deck |
| `Replay.Replay.FillDataSize` | ygopro-data/src/data/replay.rs:288-307 | accumulating over header fields, decks and responses stores the data size modulo 2^32 |
| `Clock.AccountsBalance` | ygopro/src/plugin/time_limit.rs:90-159 | over every interleaving of one turn: remaining time plus time deducted is the base limit plus time credited, credit is at most budget plus step minus one, remaining at most limit plus step minus one, wallet plus time absorbed is the opening balance plus effective deposits, and every ticked second is pending, paid or waived |
| `Clock.StepKeeps` | ygopro/src/plugin/time_backed.rs:53-88 | each tick, confirmation and response, with its handlers in any order, keeps the ledger balanced |
| `Clock.RunKeeps` | ygopro/src/plugin/time_compensator.rs:70-108 | the ledger stays balanced over every run |
| `Clock.TurnStarts` | ygopro/src/plugin/time_limit.rs:90-98 | a new turn opens balanced accounts |
| `Clock.NothingWaived` | ygopro/src/plugin/time_limit.rs:100-159 | in an orderly run without a timeout no second is waived |
| `Clock.Plugins.TimerTick` | ygopro/src/plugin/time_limit.rs:100-111 | counts a second if someone is awaited and tells whether the limit is reached |
| `Clock.Plugins.OnTimeConfirm` | ygopro/src/plugin/time_limit.rs:132-147 | the wallet pays first, the limit pays otherwise |
| `Clock.Plugins.ConfirmThroughWallet` | ygopro/src/plugin/time_compensator.rs:70-81 | a short wait the wallet can afford is absorbed and the elapsed time reset |
| `Clock.Plugins.ConfirmThroughLimit` | ygopro/src/plugin/time_limit.rs:132-147 | the elapsed time is deducted from the limit, down to zero |
| `Clock.Plugins.ChargeResponse` | ygopro/src/plugin/time_limit.rs:149-159 | the elapsed time is deducted from the clock of the player, if there is one, and starts anew in any case |
| `Clock.Plugins.GiveBackTime` | ygopro/src/plugin/time_backed.rs:53-66 | a meaningful response gives back one step while budget remains |
| `Clock.Plugins.DepositTime` | ygopro/src/plugin/time_compensator.rs:83-95 | a meaningful response deposits into the wallet, saturating |
| `Clock.Plugins.OnResponse` | ygopro/src/plugin/time_limit.rs:149-159 | the handlers of a response run in any given order as the specification says |
| `Clock.Plugins.ResetLimits` | ygopro/src/plugin/time_limit.rs:90-98 | the loop gives every player the base limit |
| `Clock.Plugins.ResetBudgets` | ygopro/src/plugin/time_backed.rs:68-76 | the loop gives every player the budget of the turn |
| `Clock.Plugins.ResetWallets` | ygopro/src/plugin/time_compensator.rs:97-108 | the loop gives every player the opening balance |
| `Clock.Plugins.OnNewTurn` | ygopro/src/plugin/time_backed.rs:84-88 | all three plugins together open the turn |
| `Handlers.MulIsMonoid` | ygopro-handler/src/extract.rs:278-304 | combining responses is associative with `Continue` as its unit on both sides |
| `Handlers.MapMul` | ygopro-handler/src/extract.rs:401-413 | converting messages distributes over combining |
| `Handlers.ExecutedUpToStop` | ygopro-handler/src/processor.rs:204-215 | exactly the handlers up to and including the first that stops are executed |
| `Handlers.FoldIsProduct` | ygopro-handler/src/processor.rs:204-215 | the chain loop computes the product of the executed replies in order |
| `Handlers.ChainVerdict` | ygopro-handler/src/processor.rs:204-215 | the result is Kick, else Terminate, else Swallow if any executed handler gave it, else all replacements in execution order |
| `Handlers.UnstableSortHarmless` | ygopro-handler/src/processor.rs:32-37 | without a stop, two orders an unstable sort may choose give the same verdict and the same bag of messages |
| `Handlers.CountResolved` | ygopro-handler/src/processor.rs:145-166 | summing over resolved lists counts every own registration once and every global once per list |
| `Handlers.Processor.Register` | ygopro-handler/src/processor.rs:187-189 | appends to the list of the key, others unchanged |
| `Handlers.Processor.RegisterGlobal` | ygopro-handler/src/processor.rs:192-194 | appends to the globals |
| `Handlers.Processor.Extend` | ygopro-handler/src/processor.rs:306-318 | every list and the globals are followed by those of the source, key by key |
| `Handlers.Processor.Resolve` | ygopro-handler/src/processor.rs:32-37 | every list becomes a priority-sorted permutation of its own handlers and the globals |
| `Handlers.Processor.SortByPriority` | ygopro-handler/src/processor.rs:32-37 | a sorted permutation |
| `Handlers.Processor.ProcessBundle` | ygopro-handler/src/processor.rs:204-215 | the loop with its break computes the fold over the list of the key, or over the globals if the key has none |
| `Handlers.Processor.RegisterAll` | ygopro-handler/src/processor.rs:169-184 | every list holds the registrations that pass the group filter, in order |
| `Handlers.Processor.Build` | ygopro-handler/src/processor.rs:169-184 | after building, every list is a sorted permutation of the chosen registrations of its key and the globals |
| `Handlers.Processor.HandlerStatistics` | ygopro-handler/src/processor.rs:145-166 | with at least one list each registration is counted exactly once per module, globals included; without any list nothing is counted |
| `Handlers.Dispatch` | ygopro-handler/src/processor.rs:204-215 | a message with a key of its own is answered with the verdict over the handlers that ran |
| `Decks.LoadedIsLegal` | ygopro-data/src/data/deck.rs:276-295 | after `load` the section check passes if and only if the extra deck that arrived holds only extra-deck cards; with an empty one it always passes, and the extra-count error is unreachable |
| `Decks.LoadedSections` | ygopro-data/src/data/deck.rs:240-273 | main, extra and side after `load` are the kept cards of the source sections, in order, the extra deck cut at fifteen |
| `Decks.LoadKeepsTheRest` | ygopro-data/src/data/deck.rs:79-84 | `load` loses unknown cards, tokens and extra-deck cards beyond the fifteenth, and nothing else |
| `Decks.PlayerDeck.RemoveUnknownCards` | ygopro-data/src/data/deck.rs:260-273 | the in-place filter keeps exactly the known non-token cards in order and reports the last one dropped |
| `Decks.PlayerDeck.Separate` | ygopro-data/src/data/deck.rs:240-249 | extra-deck cards move behind the extra deck, which is then cut |
| `Decks.PlayerDeck.Load` | ygopro-data/src/data/deck.rs:79-84 | the deck is the loaded deck of the specification and the error the reported one |
| `Decks.CheckIllegalCards` | ygopro-data/src/data/deck.rs:276-295 | the early-exit loops report the first misplaced card, if any |
| `DeckText.TextRoundTrip` | ygopro-data/src/data/deck.rs:126-176 | printing any deck and parsing the text gives the deck back, every code through its decimal digits |
| `DeckText.ToString` | ygopro-data/src/data/deck.rs:126-147 | the loops print the specified text |
| `DeckText.FromStr` | ygopro-data/src/data/deck.rs:149-176 | the line loop parses the specified deck, for any text |
| `Text.DecimalValue` | ygopro-data/src/data/deck.rs:126-176 | the value of the decimal digits of a number is the number |
| `Text.LinesOfJoin` | ygopro-data/src/data/deck.rs:149-176 | joining lines and splitting the text gives the lines back |
| `DeckLimits.CheckDeckLflists` | ygopro-data/src/data/deck.rs:309-332 | the early-exit loop accepts exactly when at every prefix no count and no credit total is over its limit, whatever order the credit keys are walked in; a refusal names a card of the deck |
| `DeckLimits.ChargeCredits` | ygopro-data/src/data/deck.rs:309-332 | the inner loop reports a credit key over its limit, or leaves every counter at its total |
| `DeckLimits.AcceptsIsWithin` | ygopro-data/src/data/deck.rs:309-332 | for any deck: within at most three copies, the card limits and the credit limits if and only if the check accepts it and no credit total reaches 2^32; so no such deck is refused, and an accepted one is outside the limits exactly when a total wraps |
| `DeckLimits.WrappedTotal` | ygopro-data/src/data/deck.rs:309-332 | for any limit of at least one, decks over it that the wrapping counter accepts |
| `DeckLimits.AcceptsAnyOrder` | ygopro-data/src/data/deck.rs:309-332 | while no credit total reaches 2^32, acceptance does not depend on card order |
| `DeckLimits.WrappedOrder` | ygopro-data/src/data/deck.rs:309-332 | a deck whose total wraps is accepted in one order and refused in the other |
| `DeckLimits.WithinAnyOrder` | ygopro-data/src/data/deck.rs:309-332 | the declarative limits do not depend on card order |
| `DeckLimits.CheckRule` | ygopro-data/src/data/deck.rs:298-306 | the first card the rule bars is reported with its kind |
| `DeckLimits.Check` | ygopro-data/src/data/deck.rs:87-116 | accepted if and only if the sizes, the sections and the rule are met, no four cards and no more than the list has count as one code, and the credits hold; the earliest failing check is reported, a count with the code that has four |
| `DeckLimits.LoadAndCheck` | ygopro-data/src/data/deck.rs:79-116 | a deck loaded without an extra deck is never refused for its extra deck's size |
| `LFLists.ParsedHash` | ygopro-data/src/data/lflist.rs:60-145 | the hash built line by line equals the one computed over the maps in any order if and only if the terms of the entries overwritten on the way cancel out; with no entry repeated they are equal |
| `LFLists.ParsedListsHash` | ygopro-data/src/data/lflist.rs:109-145 | the same for every list of a parsed file |
| `LFLists.RepeatedCard` | ygopro-data/src/data/lflist.rs:80-83 | for a card listed twice the parsed hash equals the computed one if and only if the term of its first entry is zero |
| `LFLists.RepeatedCardBreaks` | ygopro-data/src/data/lflist.rs:80-83 | a section listing the card 1 twice for which the two hashes differ |
| `LFLists.HashLineByLine` | ygopro-data/src/data/lflist.rs:80-107 | each line changes the hash by its own term and what it overwrites by the term of the old entry |
| `LFLists.ListState.PushCard` | ygopro-data/src/data/lflist.rs:80-83 | sets the limit of the code and mixes in its term |
| `LFLists.ListState.PushCreditLimit` | ygopro-data/src/data/lflist.rs:85-88 | sets the credit limit and mixes in its term |
| `LFLists.ListState.PushCredit` | ygopro-data/src/data/lflist.rs:90-93 | sets the cost of the code and mixes in its term |
| `LFLists.ListState.CalculateHash` | ygopro-data/src/data/lflist.rs:60-74 | starting anew, the loops over the maps mix in every entry once, in whatever order |
| `LFLists.ParseContent` | ygopro-data/src/data/lflist.rs:109-145 | the line loop yields the lists of the sections, each built from its entries in order |
| `Ties.MoveAcrossTies` | ygopro-data/src/field.rs:954-975 | for every move across: if the location changes, the mover targets nothing, nothing targets it, it is equipped to nothing and listed by its old target no more, and every other relation stays; inside one zone all relations stay, but in a deck the target pairs of the mover end; every other card keeps code, type and position |
| `Ties.CutMeansCut` | ygopro-data/src/field.rs:485-511 | after such a cut no card targets the mover, and none lists it as equipped wherever the listing was exact before |
| `Ties.MoveUnderTies` | ygopro-data/src/field.rs:976-1004 | a card that becomes a material ends its target pairs and leaves the card it is equipped to, and every other relation stays, whether or not the host is found; without a host nothing moves |
| `Ties.MoveFromUnderTies` | ygopro-data/src/field.rs:1005-1019 | a material that goes to a zone keeps its relations, but for target pairs in a deck; it takes the position of the message, and all others look the same |
| `Ties.MoveBetweenTies` | ygopro-data/src/field.rs:1020-1040 | a material that changes hosts keeps all relations and looks, and so does every other card |
| `Ties.MoveOutBereaves` | ygopro-data/src/field.rs:944-953 | a card that leaves takes its materials with it; the cards left lose exactly their relations to it and to the targets of its materials, and keep their looks |
| `Ties.MoveOutLeaves` | ygopro-data/src/field.rs:944-953 | the zones lose the card that leaves and nothing else; a material leaves no zone |
| `Ties.MoveInTies` | ygopro-data/src/field.rs:934-943 | a card that appears has the code and position of the message, no type and no relation; every other card keeps everything but its place |
| `Ties.SwapOnlyPlaces` | ygopro-data/src/field.rs:1054-1061 | a swap of slot cards changes nothing of any card but its place |
| `Ties.ReverseOnlyPlaces` | ygopro-data/src/field.rs:888-894 | turning the decks over changes nothing of any card but its place |
| `Ties.DrawNames` | ygopro-data/src/field.rs:1116-1129 | a draw names the cards of the deck from its top down and changes nothing else of any card but its place |
| `Ties.ShuffleHides` | ygopro-data/src/field.rs:842-886 | a set-card shuffle takes the code from the selected cards and changes nothing else of any card but its place |
| `Ties.SwapGraveDeckTurns` | ygopro-data/src/field.rs:815-840 | an exchange of grave and deck turns the cards dealt to the extra deck face-down and changes nothing else of any card but its place |
| `Records.MaterialAddress` | ygopro-data/src/field.rs:357-373 | an overlay address finds the material at the index its byte means when read as signed, negative ones as zero |
| `Records.TargetRecordAdds` | ygopro-data/src/field.rs:569-577 | after a target record the card targets what it targeted and exactly the cards found at the positions before it, each of which lists it as an owner; no other pair, no equip, no zone and nothing else changes |
| `Records.EquipRecordSets` | ygopro-data/src/field.rs:561-567 | an equip record sets the target found and lists the card there; a former target keeps listing it, and nothing else changes |
| `Records.PositionChangeShows` | ygopro-data/src/field.rs:1042-1052 | the addressed card takes position and code of the message, ends its target pairs if it was face-up and is face-down now, and every other card looks the same |
| `Effects.UnequipMoves` | ygopro-data/src/field.rs:290-295 | unequipping ends one equip relation on both sides and changes nothing else |
| `Records.RecordReaches` | ygopro-data/src/field.rs:513-559 | every kind of record in a message for one card reaches the card at the address: relations and materials as stated for each, and code, type and position as told, a zero code and a cleared record taking the type away |
| `Records.RecordsInOrder` | ygopro-data/src/field.rs:513-559 | an empty record changes nothing, and records take effect one after the other |
| `Records.RecordsByIndex` | ygopro-data/src/field.rs:761-766 | a message for a zone gives each record to the card found at its index, cast to eight bits, at that moment |
| `Effects.MoveChooses` | ygopro-data/src/field.rs:930-1040 | the six kinds of move are told apart by Limbo first and then by the overlay bits |
| `Effects.MessagesHandled` | ygopro-data/src/field.rs:257-312 | each message goes to its operation, with its fields in their order |
| `Births.StartDeals` | ygopro-data/src/field.rs:751-759 | a start leaves exactly the announced decks and extra decks, of blank cards face-down in defense |
| `Births.ReloadIsBlank` | ygopro-data/src/field.rs:1246-1269 | after a reload no card has a code, a type or a relation, only cards on the slots have a position, and no deck is reversed |
| `RoomEvents.ClientJoins` | ygopro/src/ygopro_handlers.rs:635-647 | a client that asks before the duel begins waits without a name under a key nobody has; otherwise nothing happens |
| `RoomEvents.NameGiven` | ygopro/src/ygopro_handlers.rs:520-530 | a waiting client gets the name it gives, and nobody else one |
| `RoomEvents.GameJoined` | ygopro/src/ygopro_handlers.rs:265-333 | a waiting client with the right password takes the first free seat, or watches if there is none, and becomes host exactly if nobody was in the room; any other request changes nothing |
| `RoomEvents.BecomesDuelist` | ygopro/src/ygopro_handlers.rs:336-368 | an observer takes the first free seat if there is one, and stays host if it was; otherwise nothing changes |
| `RoomEvents.BecomesObserver` | ygopro/src/ygopro_handlers.rs:371-395 | a player gives up its seat to watch, and stays host if it was |
| `RoomEvents.Kicked` | ygopro/src/ygopro_handlers.rs:614-632 | only the host, and only before the duel begins, removes any other seated player; nobody else moves |
| `RoomEvents.Left` | ygopro/src/ygopro_handlers.rs:398-458 | the leaver is gone and everybody else stays; if the host left, the first other player is host; the room ends exactly if the host left without another player, or nobody is left |
| `Clock.TickCounts` | ygopro/src/plugin/time_limit.rs:100-111 | a tick counts one second while someone is awaited under a limit, up to 32 bits, and times out exactly if the seated player awaited has no more than that left |
| `Clock.ConfirmSettles` | ygopro/src/plugin/time_limit.rs:132-147 | a confirmation of the player awaited is paid by the wallet alone if it is short and affordable, otherwise by the limit alone; any other changes nothing |
| `Clock.ChargeTakes` | ygopro/src/plugin/time_limit.rs:149-159 | a response takes the pending time from the limit of its player, as far as it goes, and from nothing else |
| `Clock.GiveBackRewards` | ygopro/src/plugin/time_backed.rs:53-66 | a meaningful response with budget left and less than the base limit raises the limit by the step, or by the room to 65535, and lowers the budget; any other leaves both |
| `Clock.DepositPays` | ygopro/src/plugin/time_compensator.rs:83-95 | the same responses pay the deposit into the wallet, up to 65535; any other leaves it |
| `Clock.TurnRefills` | ygopro/src/plugin/time_limit.rs:90-98 | a new turn gives every seated player the base limit, the opening balance, and the budget, with its cases of zero |
| `Clock.IdleRunEarnsNothing` | ygopro/src/plugin/time_backed.rs:53-66 | over any run without a meaningful answer no limit and no wallet grows and no budget moves |
| `Clock.AnswerSettles` | ygopro/src/plugin/time_limit.rs:149-159 | an answer charged first loses the pending time and then, if meaningful, gains its step, wherever the deposit falls |
| `Query.MaskedExactly` | ygopro-data/src/data/query.rs:177-197 | only the first position of a record counts: without one it stays as it is; a revealed card is never masked, a card in a hand exactly if it is not face-up, a card elsewhere exactly if it is face-down, told by the bits of position and location; masking clears every field |
| `Query.KeptFrom` | ygopro-data/src/data/query.rs:50-60 | a record is kept from no controller of its card; the second player of its team sees the field and the banished cards; everyone else sees exactly what is not hidden |
| `Query.KeptFromNobody` | ygopro-data/src/data/query.rs:177-197 | a record that is empty or has no position is kept from nobody |
| `Query.FlagValues` | ygopro-data/src/constants.rs:538-563 | the flag of every field, as a number |
| `Query.PlaceLayout` | ygopro-data/src/data/query.rs:15-47 | a place is written as controller, location, sequence, and the position or the overlay sequence |
| `Query.ListLength` | ygopro-data/src/data/query.rs:209-273 | a list is written behind its number of elements |
| `Query.ListLayout` | ygopro-data/src/data/query.rs:209-273 | the elements of a list follow in order, four bytes apart |
| `Query.NumberLayout` | ygopro-data/src/data/query.rs:209-273 | numbers are one word, signed ones in two's complement; an owner is a byte and three zeros |
| `Query.RecordLayout` | ygopro-data/src/data/query.rs:209-273 | a record starts with its own length and its flags, and its fields follow |
| `ResponseBytes.AnswerBytes` | ygopro-data/src/data/response.rs:104-156 | the bytes of every answer that is no list |
| `ResponseBytes.ListBytes` | ygopro-data/src/data/response.rs:104-156 | lists are written as their words in order, counted ones behind their length modulo 256 |
| `ResponseBytes.CommandsRead` | ygopro-data/src/data/response.rs:194-197 | for every input: command numbers above 8 or 3 are refused before the rest is read, short inputs are refused, and all others give the command |
| `ResponseBytes.NumbersRead` | ygopro-data/src/data/response.rs:198-204 | for every input: what an answer of one number is read as, and which inputs are refused |
| `ResponseBytes.DeclinableRead` | ygopro-data/src/data/response.rs:205-234 | for every input: exactly minus one declines; what else is read or refused |
| `ResponseBytes.ListsRead` | ygopro-data/src/data/response.rs:235-254 | for every input: counted lists need all their elements, the others run to the end and drop an odd byte |
| `ResponseBytes.PlaceRead` | ygopro-data/src/data/response.rs:239-248 | for every input: three zeros decline, unknown players and short inputs are refused |
| `Replay.StoredReversed` | ygopro-data/src/data/replay.rs:202-232 | card by card, a stored section is the section of the deck from its last card to its first |
| `Replay.NamesStand` | ygopro-data/src/data/replay.rs:234-278 | the names stand in the order of the source, forty bytes each |
| `Replay.SettingsStand` | ygopro-data/src/data/replay.rs:234-278 | the settings stand in sixteen bytes in the order of the source |
| `Replay.DeckStands` | ygopro-data/src/data/replay.rs:202-232 | a deck is two counted lists of codes, main before extra |
| `Replay.BodyStands` | ygopro-data/src/data/replay.rs:234-278 | names, settings, the decks of host, partner, client and partner, then the responses |
| `Replay.FirstStands` | ygopro-data/src/data/replay.rs:264-278 | each response stands behind a byte with its length |
| `Handlers.ChosenMeans` | ygopro-handler/src/processor.rs:169-184 | a registration is chosen if its key fits and there is no filter or its module is in it; the order stays |
| `Handlers.ResolvedMeans` | ygopro-handler/src/processor.rs:32-37 | a resolved list runs from the lowest priority up and holds each handler as often as it was registered |
| `Handlers.CountMeans` | ygopro-handler/src/processor.rs:145-166 | the count is the number of places of a list with a handler of the module |
| `Handlers.CountListsMeans` | ygopro-handler/src/processor.rs:145-166 | over several keys the places of all their lists are counted |
| `Decks.LoadReports` | ygopro-data/src/data/deck.rs:260-273 | `load` reports the last unknown card or token of the main deck, or else of the side deck, and nothing exactly if there is none |
| `Decks.LengthReports` | ygopro-data/src/data/deck.rs:252-257 | main is counted before extra before side, against 40 to 60, 15 and 15, and the report says how many there were |
| `Decks.IllegalReports` | ygopro-data/src/data/deck.rs:276-295 | the section check reports main before side before extra, without a code, exactly if a card of the section is a token or belongs to another one |
| `DeckLimits.CopiesCounted` | ygopro-data/src/data/deck.rs:87-91 | the copies counted for a code are the cards, by index, whose entry counts as it, or that have no entry if it is zero |
| `DeckLimits.FitsRuleExactly` | ygopro-data/src/data/deck.rs:252-306 | sizes, sections and the rule in terms of the bits of each card's entry |
| `DeckLimits.FewOfEachExactly` | ygopro-data/src/data/deck.rs:309-332 | the limit check accepts exactly if no code has more than three cards, or more than the list has for it, and no credit counter exceeds its limit after any card |
| `DeckLimits.AllowsMeans` | ygopro-data/src/constants.rs:797-809 | a rule allows a card that has every availability it stands for, and the rule that stands for none allows all |
| `DeckLimits.BarredMeans` | ygopro-data/src/constants.rs:797-809 | which of the three kinds a barred card is reported as |
| `Text.FirstLine` | ygopro-data/src/data/lflist.rs:109-113 | a line ends at a line feed, with or without a carriage return before it |
| `LFLists.Utf8Length` | ygopro-data/src/data/lflist.rs:95-102 | how many bytes of the key a character is hashed as |
| `LFLists.CardLineReads` | ygopro-data/src/data/lflist.rs:125-142 | a line of a code and a count puts the card into the list with that count if it is at most two and the code fits 32 bits; otherwise it says nothing |
| `LFLists.LimitLineReads` | ygopro-data/src/data/lflist.rs:118-124 | a line of a key and a number limits the credit |
| `LFLists.CostLineReads` | ygopro-data/src/data/lflist.rs:127-137 | a line of a code, a key and a number says what the card costs |
| `LFLists.LoneDollarReads` | ygopro-data/src/data/lflist.rs:118-137 | the key may stand apart from its dollar sign |
| `LFLists.IncompleteLines` | ygopro-data/src/data/lflist.rs:114-137 | a dollar sign without a key, a key without a number and a code alone say nothing |
| `Text.ParsedMeans` | ygopro-data/src/data/lflist.rs:121-139 | a number is digits behind an optional plus sign, within its width |
| `LFLists.OtherLinesRead` | ygopro-data/src/data/lflist.rs:109-117 | headers open a list; comments and empty lines say nothing |
| `LFLists.ListThereAndBack` | ygopro-data/src/data/lflist.rs:109-145 | a list written out line by line is parsed back entry by entry |
| `LFLists.ListSays` | ygopro-data/src/data/lflist.rs:80-93 | every card, credit and cost has the value of its last line |
| `LFLists.ListSaysNoMore` | ygopro-data/src/data/lflist.rs:80-93 | nothing is in a list that no line put there |
| `HashVectors.HashOfGenesys` | ygopro-data/src/data/lflist.rs:95-102 | the hash of the key that the tests use is the one they expect |
| `HashVectors.HashOfCards` | ygopro-data/src/data/lflist.rs:60-83 | the list of six cards of the tests has the hash they expect |
| `HashVectors.HashOfCredits` | ygopro-data/src/data/lflist.rs:60-107 | the list with credits of the tests has the hash they expect |

Several promises of the code do not hold on every input. They are stated with their exact condition: the numbering of
materials, the contents of `equipped`, a swap inside one list, the order of the extra deck, the response and record round trips, the end of a list of records, the replay size and body,
the section check of a loaded deck, the credit limits, and the hash of a list that repeats an entry. For those of the field, `BrokenRuns` holds
short runs that reach the failing side.

## Left out

Of the field:

- Messages that set one field of a card or of the duel (codes of confirmed or shuffled cards, hints, counters, attack
  values, life points, turn and phase), `owner`, the attacker and the attack target, and chains, also those of a
  reloaded field: none of them moves a card or changes a relation.
- The controller of a material, which the code does not keep current.
- A player other than the first and the second, on which the source indexes out of bounds.
- The slot arrays are fixed-length sequences in the class, as they are inline arrays inside the field in the source.
- FieldState.Field.ConfirmExtraTop: does nothing for a negative `extra_pendulum_count`, where the source casts it to an unsigned size: the top index then is out of range and nothing happens either, until the offset carries the sum past the range, which stops a debug build and wraps in a release build. The count is never negative on the runs of `ExtraRuns.ExtraDeckOrder`.
- `Evolution.Legal` is a demand on the duel engine, which is not part of this model: one known zone per move destination, a free slot, lists of at most 255
  cards, materials without materials or equips of their own, no overlay bit in update addresses and equip endpoints.
- `Field::clear` starts a new arena, so keys count from zero again; old keys are not compared with new ones.

Of the room:

- Ready flags, deck checks, chat and the contents of the messages sent; channels are client ids.
- When a duel may start: the stage is moved by an event of its own, at any time.
- What a finished duel does with winners, replays and matches.
- Room.Legal: senders name the position they were told, a slab never hands out a key above 255, and a kick or leave names a seat the room has, on which the source indexes without a check.

Of the codecs:

- Byte order is little-endian, as in every stream the server opens.
- The replay header but its size, flag and tag bit, compression, and text conversion of names, which are arrays of twenty words.
- Query.ReadAll: ends with `Endless` at a record that leads back to its own start, where the source reads that record again and again; that the library takes any premature end of the input for the end of the list is the documented behaviour of its reader, whose code is not part of this model.
- Query.WriteRecord: does not say what the buffer holds when the size does not fit 32 bits, because the source gives up with an error there.

Of the clock:

- Starting and stopping the timer, what a timeout does to the duel, the resets at the toss and at the start of a duel, and a base limit of zero, which switches the clock off.
- Clock.AccountsBalance: asks for an opening balance below 2^15, since the source casts a signed setting to sixteen bits.

Of the handlers:

- Extracting arguments, asynchronous execution and state type conversion: a handler is a priority, the module it comes from and what it does with a message.
- An unstable sort is any sorted permutation.

Of decks and limit lists:

- `load_from_codes`, the binary deck reader and writer, deck equality, side deck replacement, and packing an error into 28 bits.
- DeckLimits.CheckDeckLflists: a credit sum beyond 32 bits wraps, as in release builds; debug builds stop there.
- Lists built from maps by `from` and `from_genesys`.
- LFLists.ListState.PushCard: asks for a count of at most four; a larger one shifts a word by its own width or more.
