/**
 The tape library: slots and drives that each hold at most one tape, the medium changer
 that moves tapes between them, and the simulated backend that serves drives to clients.
 A tape sits in a cell by value and moves with all its records.
 */
module TapeLibraries {
  import opened Basics
  import opened VirtualTapes
  import opened TapeBundles

  /** Element addresses; slots count from one, drives from zero. */
  datatype Element = Slot(index: nat) | Drive(index: nat) | ImportExport(index: nat)

  datatype VtlError = OutOfRange | Empty | Occupied | UnsupportedMove

  type Cells = seq<Option<Tape>>

  datatype Library = Library(slots: Cells, drives: Cells)

  // -------------------------------------------------------------- the changer

  predicate InRange(lib: Library, e: Element) {
    match e
    case Slot(i) => 1 <= i <= |lib.slots|
    case Drive(i) => i < |lib.drives|
    case ImportExport(_) => false
  }

  function At(lib: Library, e: Element): Option<Tape>
    requires InRange(lib, e)
  {
    match e
    case Slot(i) => lib.slots[i - 1]
    case Drive(i) => lib.drives[i]
  }

  function With(lib: Library, e: Element, tape: Option<Tape>): Library
    requires InRange(lib, e)
  {
    match e
    case Slot(i) => lib.(slots := lib.slots[i - 1 := tape])
    case Drive(i) => lib.(drives := lib.drives[i := tape])
  }

  /** A move takes the tape out before it looks at the destination. */
  function Move(lib: Library, from: Element, to: Element): (Option<VtlError>, Library) {
    if from.ImportExport? || to.ImportExport? then (Some(UnsupportedMove), lib)
    else if !InRange(lib, from) then (Some(OutOfRange), lib)
    else if At(lib, from).None? then (Some(Empty), lib)
    else
      var taken := With(lib, from, None);
      if !InRange(taken, to) then (Some(OutOfRange), taken)
      else if At(taken, to).Some? then (Some(Occupied), taken)
      else (None, With(taken, to, At(lib, from)))
  }

  // ------------------------------------------------------------- conservation

  function One(cell: Option<Tape>, tape: Tape): nat { if cell == Some(tape) then 1 else 0 }

  function Count(cells: Cells, tape: Tape): nat {
    if cells == [] then 0 else One(cells[0], tape) + Count(cells[1..], tape)
  }

  /** How many cells of the library hold this tape, with these records and this cursor. */
  function Copies(lib: Library, tape: Tape): nat { Count(lib.slots, tape) + Count(lib.drives, tape) }

  ghost predicate Conserves(before: Library, after: Library) {
    forall tape :: Copies(after, tape) == Copies(before, tape)
  }

  /** Exactly one copy of `lost` is gone. */
  ghost predicate Drops(before: Library, after: Library, lost: Tape) {
    forall tape :: Copies(after, tape) + One(Some(lost), tape) == Copies(before, tape)
  }

  lemma {:induction false} CountUpdate(cells: Cells, i: nat, cell: Option<Tape>, tape: Tape)
    requires i < |cells|
    ensures Count(cells[i := cell], tape) + One(cells[i], tape) == Count(cells, tape) + One(cell, tape)
  {
    if i == 0 {
      assert cells[0 := cell][1..] == cells[1..];
    } else {
      assert cells[i := cell][1..] == cells[1..][i - 1 := cell];
      CountUpdate(cells[1..], i - 1, cell, tape);
    }
  }

  lemma CopiesUpdate(lib: Library, e: Element, cell: Option<Tape>, tape: Tape)
    requires InRange(lib, e)
    ensures Copies(With(lib, e, cell), tape) + One(At(lib, e), tape) == Copies(lib, tape) + One(cell, tape)
  {
    if e.Slot? {
      CountUpdate(lib.slots, e.index - 1, cell, tape);
    } else {
      CountUpdate(lib.drives, e.index, cell, tape);
    }
  }

  lemma TakingDrops(lib: Library, e: Element)
    requires InRange(lib, e) && At(lib, e).Some?
    ensures Drops(lib, With(lib, e, None), At(lib, e).value)
  {
    forall tape
      ensures Copies(With(lib, e, None), tape) + One(At(lib, e), tape) == Copies(lib, tape)
    {
      CopiesUpdate(lib, e, None, tape);
    }
  }

  lemma PuttingRestores(lib: Library, taken: Library, e: Element, moved: Tape)
    requires InRange(taken, e) && At(taken, e).None? && Drops(lib, taken, moved)
    ensures Conserves(lib, With(taken, e, Some(moved)))
  {
    forall tape
      ensures Copies(With(taken, e, Some(moved)), tape) == Copies(lib, tape)
    {
      CopiesUpdate(taken, e, Some(moved), tape);
      assert Copies(taken, tape) + One(Some(moved), tape) == Copies(lib, tape);
    }
  }

  lemma DroppingLoses(lib: Library, taken: Library, lost: Tape)
    requires Drops(lib, taken, lost)
    ensures !Conserves(lib, taken)
  {
    assert Copies(taken, lost) + One(Some(lost), lost) == Copies(lib, lost);
  }

  /** The source holds a tape and the destination, another cell, cannot take it. */
  predicate Loses(lib: Library, from: Element, to: Element) {
    && !to.ImportExport? && InRange(lib, from) && At(lib, from).Some?
    && from != to
    && (!InRange(lib, to) || At(lib, to).Some?)
  }

  /** A move conserves the tapes iff it is not of the losing kind; a losing move drops exactly the one it took. */
  lemma MoveConservesIff(lib: Library, from: Element, to: Element)
    ensures Conserves(lib, Move(lib, from, to).1) <==> !Loses(lib, from, to)
    ensures Loses(lib, from, to) ==>
              Move(lib, from, to).0.Some? && Drops(lib, Move(lib, from, to).1, At(lib, from).value)
  {
    if !to.ImportExport? && InRange(lib, from) && At(lib, from).Some? {
      var taken := With(lib, from, None);
      TakingDrops(lib, from);
      if InRange(taken, to) && At(taken, to).None? {
        PuttingRestores(lib, taken, to, At(lib, from).value);
      } else {
        DroppingLoses(lib, taken, At(lib, from).value);
      }
    }
  }

  /** A move succeeds iff there is a tape to move and a free cell for it, and then delivers it, cursor and all. */
  lemma MoveDelivers(lib: Library, from: Element, to: Element)
    ensures Move(lib, from, to).0.None?
            <==> InRange(lib, from) && At(lib, from).Some? && InRange(lib, to) && (from == to || At(lib, to).None?)
    ensures var (err, next) := Move(lib, from, to);
            err.None? ==>
              && InRange(next, to) && At(next, to) == At(lib, from)
              && (from != to ==> InRange(next, from) && At(next, from).None?)
  {}

  class VirtualTapeLibrary {
    var slots: Cells
    var drives: Cells

    function Value(): Library
      reads this
    {
      Library(slots, drives)
    }

    constructor (slotCount: nat, driveCount: nat)
      ensures Value() == Library(seq(slotCount, _ => None), seq(driveCount, _ => None))
    {
      slots := seq(slotCount, _ => None);
      drives := seq(driveCount, _ => None);
    }

    method Take(e: Element) returns (r: Option<Tape>, err: Option<VtlError>)
      requires !e.ImportExport?
      modifies this
      ensures !InRange(old(Value()), e) ==> r.None? && err == Some(OutOfRange) && Value() == old(Value())
      ensures InRange(old(Value()), e) ==>
                && r == At(old(Value()), e) && Value() == With(old(Value()), e, None)
                && err == (if r.None? then Some(Empty) else None)
    {
      if e.Slot? {
        if e.index == 0 || e.index > |slots| {
          return None, Some(OutOfRange);
        }
        r := slots[e.index - 1];
        slots := slots[e.index - 1 := None];
      } else {
        if e.index >= |drives| {
          return None, Some(OutOfRange);
        }
        r := drives[e.index];
        drives := drives[e.index := None];
      }
      err := if r.None? then Some(Empty) else None;
    }

    method Put(e: Element, tape: Tape) returns (err: Option<VtlError>)
      requires !e.ImportExport?
      modifies this
      ensures !InRange(old(Value()), e) ==> err == Some(OutOfRange) && Value() == old(Value())
      ensures InRange(old(Value()), e) && At(old(Value()), e).Some? ==> err == Some(Occupied) && Value() == old(Value())
      ensures InRange(old(Value()), e) && At(old(Value()), e).None? ==>
                err == None && Value() == With(old(Value()), e, Some(tape))
    {
      if e.Slot? {
        if e.index == 0 || e.index > |slots| {
          return Some(OutOfRange);
        }
        if slots[e.index - 1].Some? {
          return Some(Occupied);
        }
        slots := slots[e.index - 1 := Some(tape)];
      } else {
        if e.index >= |drives| {
          return Some(OutOfRange);
        }
        if drives[e.index].Some? {
          return Some(Occupied);
        }
        drives := drives[e.index := Some(tape)];
      }
      err := None;
    }

    method InsertTape(slot: nat, barcode: string) returns (err: Option<VtlError>)
      modifies this
      ensures err.None? <==> InRange(old(Value()), Slot(slot)) && At(old(Value()), Slot(slot)).None?
      ensures err.None? ==> Value() == With(old(Value()), Slot(slot), Some(Blank(barcode)))
      ensures err.Some? ==> Value() == old(Value())
    {
      err := Put(Slot(slot), Blank(barcode));
    }

    method MoveMedium(from: Element, to: Element) returns (err: Option<VtlError>)
      modifies this
      ensures (err, Value()) == Move(old(Value()), from, to)
    {
      if from.ImportExport? || to.ImportExport? {
        return Some(UnsupportedMove);
      }
      var tape, fault := Take(from);
      if fault.Some? {
        assert InRange(old(Value()), from) ==> With(old(Value()), from, None) == old(Value());
        return fault;
      }
      err := Put(to, tape.value);
    }
  }

  // -------------------------------------------------------------- the backend

  function StatusOf(e: VtlError): Code {
    match e
    case Empty => FailedPrecondition
    case Occupied => FailedPrecondition
    case OutOfRange => InvalidArgument
    case UnsupportedMove => InvalidArgument
  }

  predicate HoldsTape(cell: Option<Tape>, tapeId: string) { cell.Some? && cell.value.barcode == tapeId }

  /** The first cell, from `i` on, that satisfies the search. */
  function FirstWithTape(cells: Cells, tapeId: string, i: nat): (r: Option<nat>)
    requires i <= |cells|
    ensures r.Some? ==> i <= r.value < |cells| && HoldsTape(cells[r.value], tapeId)
    decreases |cells| - i
  {
    if i == |cells| then None
    else if HoldsTape(cells[i], tapeId) then Some(i)
    else FirstWithTape(cells, tapeId, i + 1)
  }

  function FirstEmpty(cells: Cells, i: nat): (r: Option<nat>)
    requires i <= |cells|
    ensures r.Some? ==> i <= r.value < |cells| && cells[r.value].None?
    decreases |cells| - i
  {
    if i == |cells| then None
    else if cells[i].None? then Some(i)
    else FirstEmpty(cells, i + 1)
  }

  /** Loading checks the drive's address and the slot's tape, not whether the drive is free. */
  function Load(lib: Library, tapeId: string, drive: nat, slotId: Option<nat>): (Status, Library) {
    if drive >= |lib.drives| then (Failed(InvalidArgument), lib) else
      var found := FirstWithTape(lib.slots, tapeId, 0);
      if slotId.None? && found.None? then (Failed(NotFound), lib) else
        var slot := if slotId.Some? then slotId.value else found.value + 1;
        if !InRange(lib, Slot(slot)) then (Failed(InvalidArgument), lib)
        else if !HoldsTape(At(lib, Slot(slot)), tapeId) then (Failed(FailedPrecondition), lib)
        else
          var (err, next) := Move(lib, Slot(slot), Drive(drive));
          (if err.Some? then Failed(StatusOf(err.value)) else Done, next)
  }

  function Unload(lib: Library, drive: nat, slotId: Option<nat>): (Status, Library) {
    if drive >= |lib.drives| then (Failed(InvalidArgument), lib) else
      var free := FirstEmpty(lib.slots, 0);
      if slotId.None? && free.None? then (Failed(FailedPrecondition), lib) else
        var slot := if slotId.Some? then slotId.value else free.value + 1;
        var (err, next) := Move(lib, Drive(drive), Slot(slot));
        (if err.Some? then Failed(StatusOf(err.value)) else Done, next)
  }

  /** A load loses its tape iff the drive was occupied; otherwise tapes are conserved. */
  lemma LoadConservesIff(lib: Library, tapeId: string, drive: nat, slotId: Option<nat>)
    ensures var found := FirstWithTape(lib.slots, tapeId, 0);
            var holding := match slotId
                           case Some(s) => InRange(lib, Slot(s)) && HoldsTape(At(lib, Slot(s)), tapeId)
                           case None => found.Some?;
            Conserves(lib, Load(lib, tapeId, drive, slotId).1)
            <==> !(drive < |lib.drives| && lib.drives[drive].Some? && holding)
  {
    var found := FirstWithTape(lib.slots, tapeId, 0);
    if slotId.Some? || found.Some? {
      MoveConservesIff(lib, Slot(if slotId.Some? then slotId.value else found.value + 1), Drive(drive));
    }
  }

  /** A load succeeds iff the drive exists and is free and the slot holds the tape; the drive then holds it. */
  lemma LoadDelivers(lib: Library, tapeId: string, drive: nat, slotId: Option<nat>)
    ensures var found := FirstWithTape(lib.slots, tapeId, 0);
            var holding := match slotId
                           case Some(s) => InRange(lib, Slot(s)) && HoldsTape(At(lib, Slot(s)), tapeId)
                           case None => found.Some?;
            Load(lib, tapeId, drive, slotId).0 == Done
            <==> drive < |lib.drives| && lib.drives[drive].None? && holding
    ensures var (r, next) := Load(lib, tapeId, drive, slotId);
            r == Done ==> drive < |next.drives| && HoldsTape(next.drives[drive], tapeId)
  {
    var found := FirstWithTape(lib.slots, tapeId, 0);
    if slotId.Some? || found.Some? {
      MoveDelivers(lib, Slot(if slotId.Some? then slotId.value else found.value + 1), Drive(drive));
    }
  }

  /** An unload that picks its own slot never loses a tape; one with a given slot does iff that slot cannot take it. */
  lemma UnloadConservesIff(lib: Library, drive: nat, slotId: Option<nat>)
    ensures Conserves(lib, Unload(lib, drive, slotId).1)
            <==> !(slotId.Some? && Loses(lib, Drive(drive), Slot(slotId.value)))
  {
    var free := FirstEmpty(lib.slots, 0);
    if slotId.Some? || free.Some? {
      MoveConservesIff(lib, Drive(drive), Slot(if slotId.Some? then slotId.value else free.value + 1));
    }
  }

  /** The drive that an acquisition may hand out. */
  predicate Fits(lib: Library, acquired: seq<bool>, d: nat, tapeId: Option<string>)
    requires d < |lib.drives| == |acquired|
  {
    !acquired[d] && (tapeId.Some? ==> HoldsTape(lib.drives[d], tapeId.value))
  }

  class SimulatorTapeBackend {
    const library: VirtualTapeLibrary
    var acquired: seq<bool>
    var nextFilemark: seq<nat>

    predicate Valid()
      reads this, library
    {
      |acquired| == |library.drives| && |nextFilemark| == |library.drives|
    }

    /** The deck formed by a loaded drive. */
    function DeckOf(d: nat): Deck
      requires Valid() && d < |library.drives| && library.drives[d].Some?
      reads this, library
    {
      Deck(library.drives[d].value, nextFilemark[d])
    }

    constructor (slotCount: nat, driveCount: nat)
      ensures Valid() && fresh(library)
      ensures library.Value() == Library(seq(slotCount, _ => None), seq(driveCount, _ => None))
      ensures acquired == seq(driveCount, _ => false) && nextFilemark == seq(driveCount, _ => 0)
    {
      library := new VirtualTapeLibrary(slotCount, driveCount);
      acquired := seq(driveCount, _ => false);
      nextFilemark := seq(driveCount, _ => 0);
    }

    /** A drive goes to at most one client: only a free drive is handed out, and it is marked at once. */
    method AcquireDrive(preferred: Option<nat>, tapeId: Option<string>) returns (r: Result<nat>)
      requires Valid()
      modifies this`acquired
      ensures Valid()
      ensures r.Err? ==> acquired == old(acquired)
      ensures r.Ok? ==>
                && r.value < |library.drives| && Fits(library.Value(), old(acquired), r.value, tapeId)
                && acquired == old(acquired)[r.value := true]
                && (preferred.Some? ==> r.value == preferred.value)
                && (preferred.None? ==> forall d :: 0 <= d < r.value ==>
                      !Fits(library.Value(), old(acquired), d, tapeId))
      ensures preferred.None? && r.Err? ==>
                && r.code == ResourceExhausted
                && forall d :: 0 <= d < |library.drives| ==> !Fits(library.Value(), old(acquired), d, tapeId)
      ensures preferred.Some? && r.Err? ==>
                if preferred.value >= |library.drives| then r.code == InvalidArgument
                else r.code == FailedPrecondition && !Fits(library.Value(), old(acquired), preferred.value, tapeId)
    {
      var d := 0;
      if preferred.Some? {
        d := preferred.value;
        if d >= |library.drives| {
          return Err(InvalidArgument);
        }
      } else {
        while d < |library.drives| && !Fits(library.Value(), acquired, d, tapeId)
          invariant d <= |library.drives|
          invariant forall e :: 0 <= e < d ==> !Fits(library.Value(), acquired, e, tapeId)
        {
          d := d + 1;
        }
        if d == |library.drives| {
          return Err(ResourceExhausted);
        }
      }
      if acquired[d] {
        return Err(FailedPrecondition);
      }
      if tapeId.Some? && !HoldsTape(library.drives[d], tapeId.value) {
        return Err(FailedPrecondition);
      }
      acquired := acquired[d := true];
      r := Ok(d);
    }

    method ReleaseDrive(d: nat) returns (r: Status)
      requires Valid()
      modifies this`acquired
      ensures Valid()
      ensures r == (if d < |library.drives| then Done else Failed(InvalidArgument))
      ensures acquired == if d < |library.drives| then old(acquired)[d := false] else old(acquired)
    {
      if d >= |library.drives| {
        return Failed(InvalidArgument);
      }
      acquired := acquired[d := false];
      r := Done;
    }

    method FindSlotWithTape(tapeId: string) returns (r: Option<nat>)
      ensures r == FirstWithTape(library.slots, tapeId, 0)
    {
      var i := 0;
      while i < |library.slots|
        invariant i <= |library.slots|
        invariant FirstWithTape(library.slots, tapeId, i) == FirstWithTape(library.slots, tapeId, 0)
      {
        if HoldsTape(library.slots[i], tapeId) {
          return Some(i);
        }
        i := i + 1;
      }
      r := None;
    }

    method FindEmptySlot() returns (r: Option<nat>)
      ensures r == FirstEmpty(library.slots, 0)
    {
      var i := 0;
      while i < |library.slots|
        invariant i <= |library.slots|
        invariant FirstEmpty(library.slots, i) == FirstEmpty(library.slots, 0)
      {
        if library.slots[i].None? {
          return Some(i);
        }
        i := i + 1;
      }
      r := None;
    }

    method LoadTape(tapeId: string, drive: nat, slotId: Option<nat>) returns (r: Status)
      requires Valid()
      modifies library
      ensures Valid()
      ensures (r, library.Value()) == Load(old(library.Value()), tapeId, drive, slotId)
    {
      if drive >= |library.drives| {
        return Failed(InvalidArgument);
      }
      var slot: nat;
      if slotId.Some? {
        slot := slotId.value;
      } else {
        var found := FindSlotWithTape(tapeId);
        if found.None? {
          return Failed(NotFound);
        }
        slot := found.value + 1;
      }
      if slot == 0 || slot > |library.slots| {
        return Failed(InvalidArgument);
      }
      if !HoldsTape(library.slots[slot - 1], tapeId) {
        return Failed(FailedPrecondition);
      }
      var err := library.MoveMedium(Slot(slot), Drive(drive));
      r := if err.Some? then Failed(StatusOf(err.value)) else Done;
    }

    method UnloadTape(drive: nat, slotId: Option<nat>) returns (r: Status)
      requires Valid()
      modifies library
      ensures Valid()
      ensures (r, library.Value()) == Unload(old(library.Value()), drive, slotId)
    {
      if drive >= |library.drives| {
        return Failed(InvalidArgument);
      }
      var slot: nat;
      if slotId.Some? {
        slot := slotId.value;
      } else {
        var free := FindEmptySlot();
        if free.None? {
          return Failed(FailedPrecondition);
        }
        slot := free.value + 1;
      }
      var err := library.MoveMedium(Drive(drive), Slot(slot));
      r := if err.Some? then Failed(StatusOf(err.value)) else Done;
    }

    method WriteBundle(d: nat, data: seq<Byte>) returns (r: Result<(nat, nat)>)
      requires Valid()
      modifies library, this`nextFilemark
      ensures Valid()
      ensures d >= |old(library.drives)| ==> r == Err(InvalidArgument)
      ensures d < |old(library.drives)| && old(library.drives)[d].None? ==> r == Err(FailedPrecondition)
      ensures r.Err? ==> library.Value() == old(library.Value()) && nextFilemark == old(nextFilemark)
      ensures d < |old(library.drives)| && old(library.drives)[d].Some? ==>
                && r.Ok? && library.slots == old(library.slots)
                && d < |library.drives| && library.drives[d].Some?
                && (r.value, DeckOf(d)) == TapeBundles.WriteBundle(old(DeckOf(d)), data)
                && library.drives == old(library.drives)[d := library.drives[d]]
                && nextFilemark == old(nextFilemark)[d := nextFilemark[d]]
    {
      if d >= |library.drives| {
        return Err(InvalidArgument);
      }
      var start := nextFilemark[d];
      if library.drives[d].None? {
        return Err(FailedPrecondition);
      }
      library.drives := library.drives[d := Some(Appended(library.drives[d].value, Data(data)))];
      library.drives := library.drives[d := Some(Appended(library.drives[d].value, Filemark))];
      nextFilemark := nextFilemark[d := Next32(start)];
      r := Ok((start, nextFilemark[d]));
    }

    method ReadBundle(d: nat, filemark: nat, length: nat) returns (r: Result<seq<Byte>>)
      requires Valid()
      modifies library
      ensures Valid()
      ensures d >= |old(library.drives)| ==> r == Err(InvalidArgument) && library.Value() == old(library.Value())
      ensures d < |old(library.drives)| && old(library.drives)[d].None? ==>
                r == Err(FailedPrecondition) && library.Value() == old(library.Value())
      ensures d < |old(library.drives)| && old(library.drives)[d].Some? ==>
                && library.slots == old(library.slots)
                && d < |library.drives| && library.drives[d].Some?
                && (r, library.drives[d].value)
                   == TapeBundles.ReadBundle(old(library.drives)[d].value, filemark, length)
                && library.drives == old(library.drives)[d := library.drives[d]]
    {
      if d >= |library.drives| {
        return Err(InvalidArgument);
      }
      if library.drives[d].None? {
        return Err(FailedPrecondition);
      }
      var tape := Rewound(library.drives[d].value);
      if filemark > 0 {
        var (found, at) := SeekFrom(tape, filemark);
        tape := at;
        if !found {
          library.drives := library.drives[d := Some(tape)];
          return Err(FailedPrecondition);
        }
      }
      var (data, last) := ReadFrom(tape, Limit(length));
      library.drives := library.drives[d := Some(last)];
      r := Ok(data);
    }
  }

  /**
   The counter belongs to the drive, not to the tape: on a fresh tape the first bundle can be
   read back under the number handed out iff no write was counted on the drive before.
   */
  lemma FreshTapeReadsBackIff(barcode: string, counter: nat, data: seq<Byte>)
    requires data != [] && |data| <= USIZE_MAX && counter < U32
    ensures var ((start, _), deck) := TapeBundles.WriteBundle(Deck(Blank(barcode), counter), data);
            TapeBundles.ReadBundle(deck.tape, start, 0).0 == Ok(data) <==> counter == 0
  {
    WriteStores(Deck(Blank(barcode), 0), [], data);
    assert [] + [data] == [data];
    var tape := Written(Blank(barcode), data);
    ReadReturnsBundle(tape, [data], counter, 0);
    assert data[..|data|] == data;
  }
}
