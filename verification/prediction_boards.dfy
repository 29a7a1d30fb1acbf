/** The two drag-and-drop boards on which a player fills the pole and podium
    slots. The weekend board serves a qualifying and a race session at once:
    the pole slot belongs to qualifying and is independent of the three race
    slots, among which a driver can appear only once. The single-session
    board keeps every driver in at most one of its four slots. Fetches are
    not modelled: a save receives whether its requests went through. */
module PredictionBoards {
  import opened Common
  import opened F1Types
  import opened GamePredictions

  datatype SlotKey = Pole | P1 | P2 | P3

  /** The `slots` record: one driver or null per slot. */
  datatype Slots = Slots(pole: Option<GameDriver>, p1: Option<GameDriver>, p2: Option<GameDriver>, p3: Option<GameDriver>) {
    function Get(key: SlotKey): Option<GameDriver> {
      match key
      case Pole => pole
      case P1 => p1
      case P2 => p2
      case P3 => p3
    }

    /** `{ ...prev, [key]: value }`. */
    function Set(key: SlotKey, value: Option<GameDriver>): (s: Slots)
      ensures s.Get(key) == value
      ensures forall k | k != key :: s.Get(k) == Get(k)
    {
      match key
      case Pole => this.(pole := value)
      case P1 => this.(p1 := value)
      case P2 => this.(p2 := value)
      case P3 => this.(p3 := value)
    }
  }

  const EmptySlots := Slots(None, None, None, None)
  const RaceKeys := [P1, P2, P3]
  const AllKeys := [Pole, P1, P2, P3]

  /** The slot holds a driver with this id. */
  predicate Holds(s: Slots, key: SlotKey, id: string) {
    s.Get(key).Some? && s.Get(key).value.driverId == id
  }

  /** Empties every listed slot that holds a driver with this id. */
  function ClearDriver(s: Slots, id: string, keys: seq<SlotKey>): (r: Slots)
    ensures forall k :: r.Get(k) == if k in keys && Holds(s, k, id) then None else s.Get(k)
    decreases |keys|
  {
    if keys == [] then s
    else
      var n := |keys| - 1;
      var r := ClearDriver(s, id, keys[..n]);
      assert keys == keys[..n] + [keys[n]];
      if Holds(r, keys[n], id) then r.Set(keys[n], None) else r
  }

  /** Clears the driver from the listed slots, then places it. */
  function DropInto(s: Slots, slot: SlotKey, driver: GameDriver, keys: seq<SlotKey>): (r: Slots)
    ensures r.Get(slot) == Some(driver)
    ensures forall k | k != slot :: r.Get(k) == if k in keys && Holds(s, k, driver.driverId) then None else s.Get(k)
  {
    ClearDriver(s, driver.driverId, keys).Set(slot, Some(driver))
  }

  /** The weekend board's drop: a race slot first clears the driver from the
      race slots; the pole slot clears nothing. */
  function WeekendDrop(s: Slots, slot: SlotKey, driver: GameDriver): Slots {
    DropInto(s, slot, driver, if slot == Pole then [] else RaceKeys)
  }

  /** No driver id appears in two race slots. */
  predicate RaceDistinct(s: Slots) {
    forall k1, k2 | k1 != k2 && k1 != Pole && k2 != Pole ::
      !(s.Get(k1).Some? && s.Get(k2).Some? && s.Get(k1).value.driverId == s.Get(k2).value.driverId)
  }

  /** No driver id appears in two slots. */
  predicate AllDistinct(s: Slots) {
    forall k1, k2 | k1 != k2 ::
      !(s.Get(k1).Some? && s.Get(k2).Some? && s.Get(k1).value.driverId == s.Get(k2).value.driverId)
  }

  /** A weekend drop fills the target; a pole drop changes nothing else, a
      race drop leaves the pole alone and empties only the race slots that
      held the same driver. */
  lemma WeekendDropSpec(s: Slots, slot: SlotKey, driver: GameDriver)
    ensures WeekendDrop(s, slot, driver).Get(slot) == Some(driver)
    ensures slot == Pole ==> forall k | k != Pole :: WeekendDrop(s, slot, driver).Get(k) == s.Get(k)
    ensures slot != Pole ==> WeekendDrop(s, slot, driver).pole == s.pole
    ensures slot != Pole ==> forall k | k != slot && k != Pole ::
      WeekendDrop(s, slot, driver).Get(k) == if Holds(s, k, driver.driverId) then None else s.Get(k)
  {
    assert Pole !in RaceKeys;
    assert WeekendDrop(s, slot, driver).Get(Pole) == WeekendDrop(s, slot, driver).pole;
  }

  /** After a race drop the driver holds exactly one race slot, and race
      slots that were distinct stay distinct. */
  lemma WeekendDropKeepsRaceDistinct(s: Slots, slot: SlotKey, driver: GameDriver)
    ensures slot != Pole ==> forall k | k != Pole :: Holds(WeekendDrop(s, slot, driver), k, driver.driverId) <==> k == slot
    ensures RaceDistinct(s) ==> RaceDistinct(WeekendDrop(s, slot, driver))
  {
    var r := WeekendDrop(s, slot, driver);
    WeekendDropSpec(s, slot, driver);
    if RaceDistinct(s) {
      forall k1, k2 | k1 != k2 && k1 != Pole && k2 != Pole
        ensures !(r.Get(k1).Some? && r.Get(k2).Some? && r.Get(k1).value.driverId == r.Get(k2).value.driverId)
      {
        if slot == Pole {
          assert r.Get(k1) == s.Get(k1) && r.Get(k2) == s.Get(k2);
        } else if k1 == slot {
          assert r.Get(k2) == if Holds(s, k2, driver.driverId) then None else s.Get(k2);
        } else if k2 == slot {
          assert r.Get(k1) == if Holds(s, k1, driver.driverId) then None else s.Get(k1);
        } else {
          assert r.Get(k1).Some? ==> r.Get(k1) == s.Get(k1);
          assert r.Get(k2).Some? ==> r.Get(k2) == s.Get(k2);
        }
      }
    }
  }

  /** The pole slot may hold a driver who also holds a race slot. */
  lemma PoleIndependent(s: Slots, driver: GameDriver)
    requires s == EmptySlots
    ensures var r := WeekendDrop(WeekendDrop(s, P1, driver), Pole, driver);
      r.pole == Some(driver) && r.p1 == Some(driver)
  {
  }

  /** After a drop on the single-session board the driver holds exactly one
      slot, and slots that were distinct stay distinct. */
  lemma BoardDropSpec(s: Slots, slot: SlotKey, driver: GameDriver)
    ensures forall k :: Holds(DropInto(s, slot, driver, AllKeys), k, driver.driverId) <==> k == slot
    ensures forall k | k != slot :: DropInto(s, slot, driver, AllKeys).Get(k) == if Holds(s, k, driver.driverId) then None else s.Get(k)
    ensures AllDistinct(s) ==> AllDistinct(DropInto(s, slot, driver, AllKeys))
  {
    var r := DropInto(s, slot, driver, AllKeys);
    assert forall k :: k in AllKeys;
    assert forall k | k != slot :: r.Get(k) == if Holds(s, k, driver.driverId) then None else s.Get(k);
    if AllDistinct(s) {
      forall k1, k2 | k1 != k2
        ensures !(r.Get(k1).Some? && r.Get(k2).Some? && r.Get(k1).value.driverId == r.Get(k2).value.driverId)
      {
        if k1 != slot && k2 != slot {
          assert r.Get(k1).Some? ==> r.Get(k1) == s.Get(k1);
          assert r.Get(k2).Some? ==> r.Get(k2) == s.Get(k2);
        }
      }
    }
  }

  /** Emptying a slot keeps distinct slots distinct. */
  lemma RemoveKeepsDistinct(s: Slots, slot: SlotKey)
    ensures AllDistinct(s) ==> AllDistinct(s.Set(slot, None))
    ensures RaceDistinct(s) ==> RaceDistinct(s.Set(slot, None))
  {
  }

  /** `placedDriverIds`: the ids of the filled slots, pole first. */
  function PlacedIds(s: Slots): (ids: seq<string>)
    ensures |ids| <= 4
    ensures forall id :: id in ids <==> exists k :: Holds(s, k, id)
  {
    var ids := PlacedId(s.pole) + PlacedId(s.p1) + PlacedId(s.p2) + PlacedId(s.p3);
    forall id
      ensures id in ids <==> exists k :: Holds(s, k, id)
    {
      InFour(PlacedId(s.pole), PlacedId(s.p1), PlacedId(s.p2), PlacedId(s.p3), id);
      if id in PlacedId(s.pole) {
        assert Holds(s, Pole, id);
      } else if id in PlacedId(s.p1) {
        assert Holds(s, P1, id);
      } else if id in PlacedId(s.p2) {
        assert Holds(s, P2, id);
      } else if id in PlacedId(s.p3) {
        assert Holds(s, P3, id);
      }
      if exists k :: Holds(s, k, id) {
        var k :| Holds(s, k, id);
        assert k == Pole || k == P1 || k == P2 || k == P3;
      }
    }
    ids
  }

  /** The id of a filled slot, nothing for an empty one. */
  function PlacedId(slot: Option<GameDriver>): (ids: seq<string>)
    ensures |ids| <= 1
    ensures forall id :: id in ids <==> slot.Some? && slot.value.driverId == id
  {
    if slot.Some? then [slot.value.driverId] else []
  }

  lemma InFour(a: seq<string>, b: seq<string>, c: seq<string>, d: seq<string>, x: string)
    ensures x in a + b + c + d <==> x in a || x in b || x in c || x in d
  {
  }

  /** `racePlacedIds`: the truthy ids of the three race slots. */
  function RacePlacedIds(s: Slots): (ids: seq<string>)
    ensures forall id :: id in ids <==> id != "" && (Holds(s, P1, id) || Holds(s, P2, id) || Holds(s, P3, id))
  {
    (if s.p1.Some? && s.p1.value.driverId != "" then [s.p1.value.driverId] else [])
    + (if s.p2.Some? && s.p2.value.driverId != "" then [s.p2.value.driverId] else [])
    + (if s.p3.Some? && s.p3.value.driverId != "" then [s.p3.value.driverId] else [])
  }

  /** `drivers.find(d => d.driverId === id) || null`; a null id finds no
      one. */
  function FindDriver(drivers: seq<GameDriver>, id: Option<string>): (found: Option<GameDriver>)
    ensures found.Some? ==> id.Some? && found.value in drivers && found.value.driverId == id.value
    ensures found.None? <==> id.None? || forall i | 0 <= i < |drivers| :: drivers[i].driverId != id.value
  {
    if id.None? then None else FindFirst(drivers, (d: GameDriver) => d.driverId == id.value)
  }

  /** The id a save sends for a slot: `slot?.driverId || null`. */
  function SlotId(slot: Option<GameDriver>): (id: Option<string>)
    ensures id.Some? <==> slot.Some? && slot.value.driverId != ""
    ensures id.Some? ==> id.value == slot.value.driverId
  {
    if slot.Some? then OrNull(Some(slot.value.driverId)) else None
  }

  /** The body of one save request. */
  datatype Payload = Payload(
    sessionType: GameSessionType,
    pole: Option<string>,
    p1: Option<string>,
    p2: Option<string>,
    p3: Option<string>,
    isDefault: bool)

  /** The single-session board scores with the sprint table for both sprint
      sessions; the pole counts for both qualifying sessions. */
  function BoardScoring(sessionType: GameSessionType): (scoring: Scoring)
    ensures scoring == SprintScoring <==> sessionType == Sprint || sessionType == SprintQualifying
    ensures scoring == RaceScoring <==> sessionType.Race? || sessionType.Qualifying?
  {
    assert SprintScoring.pole != RaceScoring.pole;
    if sessionType == Sprint || sessionType == SprintQualifying then SprintScoring else RaceScoring
  }

  /** Tapping the selected driver deselects it; tapping another selects
      that one. */
  function ToggleSelection(selected: Option<GameDriver>, driver: GameDriver): (next: Option<GameDriver>)
    ensures selected.Some? && selected.value.driverId == driver.driverId ==> next.None?
    ensures !(selected.Some? && selected.value.driverId == driver.driverId) ==> next == Some(driver)
  {
    if selected.Some? && selected.value.driverId == driver.driverId then None else Some(driver)
  }

  // ---------------------------------------------------------------------------
  // The weekend board

  class WeekendBoard {
    var slots: Slots
    var selectedDriver: Option<GameDriver>
    var saved: bool
    var saving: bool
    var qualiType: GameSessionType
    var raceType: GameSessionType
    var qualiLocked: bool
    var raceLocked: bool

    constructor (qualiType: GameSessionType, qualiLocked: bool, raceType: GameSessionType, raceLocked: bool)
      ensures slots == EmptySlots && selectedDriver.None? && !saved && !saving
      ensures this.qualiType == qualiType && this.qualiLocked == qualiLocked
      ensures this.raceType == raceType && this.raceLocked == raceLocked
    {
      slots := EmptySlots;
      selectedDriver := None;
      saved := false;
      saving := false;
      this.qualiType := qualiType;
      this.qualiLocked := qualiLocked;
      this.raceType := raceType;
      this.raceLocked := raceLocked;
    }

    /** The pole slot follows the qualifying lock, the race slots the race
        lock. */
    predicate SlotLocked(slot: SlotKey)
      reads this
    {
      if slot == Pole then qualiLocked else raceLocked
    }

    /** Loads the saved predictions: the pole from the qualifying one, the
        podium from the race one. */
    method Load(drivers: seq<GameDriver>, qualiPrediction: Option<Prediction>, racePrediction: Option<Prediction>)
      modifies this
      ensures slots.pole == FindDriver(drivers, if qualiPrediction.Some? then OrNull(qualiPrediction.value.pole) else None)
      ensures slots.p1 == FindDriver(drivers, if racePrediction.Some? then OrNull(racePrediction.value.p1) else None)
      ensures slots.p2 == FindDriver(drivers, if racePrediction.Some? then OrNull(racePrediction.value.p2) else None)
      ensures slots.p3 == FindDriver(drivers, if racePrediction.Some? then OrNull(racePrediction.value.p3) else None)
      ensures selectedDriver == old(selectedDriver) && saved == old(saved) && saving == old(saving)
      ensures qualiType == old(qualiType) && raceType == old(raceType)
      ensures qualiLocked == old(qualiLocked) && raceLocked == old(raceLocked)
    {
      var pole := FindDriver(drivers, if qualiPrediction.Some? then OrNull(qualiPrediction.value.pole) else None);
      var p1 := FindDriver(drivers, if racePrediction.Some? then OrNull(racePrediction.value.p1) else None);
      var p2 := FindDriver(drivers, if racePrediction.Some? then OrNull(racePrediction.value.p2) else None);
      var p3 := FindDriver(drivers, if racePrediction.Some? then OrNull(racePrediction.value.p3) else None);
      slots := Slots(pole, p1, p2, p3);
    }

    /** `handleDrop`: ignored on a locked slot; otherwise a race drop clears
        the driver from the race slots, the driver is placed, the selection
        is cleared and the board is marked unsaved. */
    method Drop(slot: SlotKey, driver: GameDriver)
      modifies this
      ensures SlotLocked(slot) ==> slots == old(slots) && selectedDriver == old(selectedDriver) && saved == old(saved)
      ensures !SlotLocked(slot) ==> slots == WeekendDrop(old(slots), slot, driver) && selectedDriver.None? && !saved
      ensures saving == old(saving) && qualiType == old(qualiType) && raceType == old(raceType)
      ensures qualiLocked == old(qualiLocked) && raceLocked == old(raceLocked)
    {
      if slot == Pole && qualiLocked {
        return;
      }
      if slot != Pole && raceLocked {
        return;
      }
      var keys := if slot == Pole then [] else RaceKeys;
      var next := slots;
      var i := 0;
      while i < |keys|
        invariant 0 <= i <= |keys|
        invariant next == ClearDriver(slots, driver.driverId, keys[..i])
      {
        var key := keys[i];
        if next.Get(key).Some? && next.Get(key).value.driverId == driver.driverId {
          next := next.Set(key, None);
        }
        assert keys[..i + 1][..i] == keys[..i];
        i := i + 1;
      }
      assert keys[..i] == keys;
      slots := next.Set(slot, Some(driver));
      selectedDriver := None;
      saved := false;
    }

    /** `handleRemove`: ignored on a locked slot; otherwise only the named
        slot is emptied and the board is marked unsaved. */
    method Remove(slot: SlotKey)
      modifies this
      ensures SlotLocked(slot) ==> slots == old(slots) && saved == old(saved)
      ensures !SlotLocked(slot) ==> slots == old(slots).Set(slot, None) && !saved
      ensures selectedDriver == old(selectedDriver) && saving == old(saving)
      ensures qualiType == old(qualiType) && raceType == old(raceType)
      ensures qualiLocked == old(qualiLocked) && raceLocked == old(raceLocked)
    {
      if slot == Pole && qualiLocked {
        return;
      }
      if slot != Pole && raceLocked {
        return;
      }
      slots := slots.Set(slot, None);
      saved := false;
    }

    /** `handleDriverSelect`. */
    method SelectDriver(driver: GameDriver)
      modifies this
      ensures selectedDriver == ToggleSelection(old(selectedDriver), driver)
      ensures slots == old(slots) && saved == old(saved) && saving == old(saving)
      ensures qualiType == old(qualiType) && raceType == old(raceType)
      ensures qualiLocked == old(qualiLocked) && raceLocked == old(raceLocked)
    {
      selectedDriver := ToggleSelection(selectedDriver, driver);
    }

    /** A tap on a slot drops the selected driver there, if any. */
    method SlotClick(slot: SlotKey)
      modifies this
      ensures old(selectedDriver).Some? && !SlotLocked(slot) ==>
        slots == WeekendDrop(old(slots), slot, old(selectedDriver).value) && selectedDriver.None? && !saved
      ensures old(selectedDriver).None? || SlotLocked(slot) ==>
        slots == old(slots) && selectedDriver == old(selectedDriver) && saved == old(saved)
      ensures saving == old(saving) && qualiType == old(qualiType) && raceType == old(raceType)
      ensures qualiLocked == old(qualiLocked) && raceLocked == old(raceLocked)
    {
      if selectedDriver.Some? {
        Drop(slot, selectedDriver.value);
      }
    }

    /** The requests a save sends: the pole alone to the qualifying session
        and the podium alone to the race session, skipping a locked one. */
    function SavePayloads(): (payloads: seq<Payload>)
      reads this
      ensures |payloads| == (if qualiLocked then 0 else 1) + (if raceLocked then 0 else 1)
      ensures forall p | p in payloads :: !p.isDefault
      ensures forall p | p in payloads && p.sessionType == qualiType && qualiType != raceType ::
        p.pole == SlotId(slots.pole) && p.p1.None? && p.p2.None? && p.p3.None?
      ensures forall p | p in payloads && p.sessionType == raceType && qualiType != raceType ::
        p.pole.None? && p.p1 == SlotId(slots.p1) && p.p2 == SlotId(slots.p2) && p.p3 == SlotId(slots.p3)
    {
      (if qualiLocked then [] else [Payload(qualiType, SlotId(slots.pole), None, None, None, false)])
      + (if raceLocked then [] else [Payload(raceType, None, SlotId(slots.p1), SlotId(slots.p2), SlotId(slots.p3), false)])
    }

    /** `savePredictions`: nothing without a user or during a save;
        otherwise the board is marked saved unless a request failed to go
        out, and the saving flag is cleared. */
    method Save(signedIn: bool, sent: bool)
      modifies this
      ensures !signedIn || old(saving) ==> saved == old(saved) && saving == old(saving)
      ensures signedIn && !old(saving) ==> saved == (sent || old(saved)) && !saving
      ensures slots == old(slots) && selectedDriver == old(selectedDriver)
      ensures qualiType == old(qualiType) && raceType == old(raceType)
      ensures qualiLocked == old(qualiLocked) && raceLocked == old(raceLocked)
    {
      if !signedIn || saving {
        return;
      }
      saving := true;
      if sent {
        saved := true;
      }
      saving := false;
    }
  }

  // ---------------------------------------------------------------------------
  // The single-session board

  class SessionBoard {
    var slots: Slots
    var selectedDriver: Option<GameDriver>
    var saved: bool
    var saving: bool
    var sessionType: GameSessionType
    var isLocked: bool

    constructor (sessionType: GameSessionType, isLocked: bool)
      ensures slots == EmptySlots && selectedDriver.None? && !saved && !saving
      ensures this.sessionType == sessionType && this.isLocked == isLocked
    {
      slots := EmptySlots;
      selectedDriver := None;
      saved := false;
      saving := false;
      this.sessionType := sessionType;
      this.isLocked := isLocked;
    }

    /** Loads an existing prediction; without one the slots stay as they
        are. */
    method Load(drivers: seq<GameDriver>, existing: Option<Prediction>)
      modifies this
      ensures existing.None? ==> slots == old(slots)
      ensures existing.Some? ==> slots == Slots(FindDriver(drivers, existing.value.pole), FindDriver(drivers, existing.value.p1),
        FindDriver(drivers, existing.value.p2), FindDriver(drivers, existing.value.p3))
      ensures selectedDriver == old(selectedDriver) && saved == old(saved) && saving == old(saving)
      ensures sessionType == old(sessionType) && isLocked == old(isLocked)
    {
      if existing.Some? {
        var p := existing.value;
        slots := Slots(FindDriver(drivers, p.pole), FindDriver(drivers, p.p1), FindDriver(drivers, p.p2), FindDriver(drivers, p.p3));
      }
    }

    /** `handleDrop`: a no-op when locked; otherwise the driver is cleared
        from every slot, pole included, then placed. */
    method Drop(slot: SlotKey, driver: GameDriver)
      modifies this
      ensures isLocked ==> slots == old(slots) && selectedDriver == old(selectedDriver) && saved == old(saved)
      ensures !isLocked ==> slots == DropInto(old(slots), slot, driver, AllKeys) && selectedDriver.None? && !saved
      ensures saving == old(saving) && sessionType == old(sessionType) && isLocked == old(isLocked)
    {
      if isLocked {
        return;
      }
      var next := slots;
      var i := 0;
      while i < |AllKeys|
        invariant 0 <= i <= |AllKeys|
        invariant next == ClearDriver(slots, driver.driverId, AllKeys[..i])
      {
        var key := AllKeys[i];
        if next.Get(key).Some? && next.Get(key).value.driverId == driver.driverId {
          next := next.Set(key, None);
        }
        assert AllKeys[..i + 1][..i] == AllKeys[..i];
        i := i + 1;
      }
      assert AllKeys[..i] == AllKeys;
      slots := next.Set(slot, Some(driver));
      selectedDriver := None;
      saved := false;
    }

    /** `handleRemove`: a no-op when locked; otherwise only the named slot
        is emptied. */
    method Remove(slot: SlotKey)
      modifies this
      ensures isLocked ==> slots == old(slots) && saved == old(saved)
      ensures !isLocked ==> slots == old(slots).Set(slot, None) && !saved
      ensures selectedDriver == old(selectedDriver) && saving == old(saving)
      ensures sessionType == old(sessionType) && isLocked == old(isLocked)
    {
      if isLocked {
        return;
      }
      slots := slots.Set(slot, None);
      saved := false;
    }

    /** `handleDriverSelect`: a no-op when locked. */
    method SelectDriver(driver: GameDriver)
      modifies this
      ensures isLocked ==> selectedDriver == old(selectedDriver)
      ensures !isLocked ==> selectedDriver == ToggleSelection(old(selectedDriver), driver)
      ensures slots == old(slots) && saved == old(saved) && saving == old(saving)
      ensures sessionType == old(sessionType) && isLocked == old(isLocked)
    {
      if isLocked {
        return;
      }
      selectedDriver := ToggleSelection(selectedDriver, driver);
    }

    /** A tap on a slot drops the selected driver there, when unlocked. */
    method SlotClick(slot: SlotKey)
      modifies this
      ensures old(selectedDriver).Some? && !isLocked ==>
        slots == DropInto(old(slots), slot, old(selectedDriver).value, AllKeys) && selectedDriver.None? && !saved
      ensures old(selectedDriver).None? || isLocked ==>
        slots == old(slots) && selectedDriver == old(selectedDriver) && saved == old(saved)
      ensures saving == old(saving) && sessionType == old(sessionType) && isLocked == old(isLocked)
    {
      if selectedDriver.Some? && !isLocked {
        Drop(slot, selectedDriver.value);
      }
    }

    /** The body of a save: all four slots for this session. */
    function SavePayload(): (p: Payload)
      reads this
      ensures p.sessionType == sessionType && !p.isDefault
      ensures p.pole == SlotId(slots.pole) && p.p1 == SlotId(slots.p1) && p.p2 == SlotId(slots.p2) && p.p3 == SlotId(slots.p3)
    {
      Payload(sessionType, SlotId(slots.pole), SlotId(slots.p1), SlotId(slots.p2), SlotId(slots.p3), false)
    }

    /** `savePrediction`: nothing without a user or when locked; otherwise
        the board is marked saved iff the response is ok. */
    method Save(signedIn: bool, responseOk: bool)
      modifies this
      ensures !signedIn || isLocked ==> saved == old(saved) && saving == old(saving)
      ensures signedIn && !isLocked ==> saved == (responseOk || old(saved)) && !saving
      ensures slots == old(slots) && selectedDriver == old(selectedDriver)
      ensures sessionType == old(sessionType) && isLocked == old(isLocked)
    {
      if !signedIn || isLocked {
        return;
      }
      saving := true;
      if responseOk {
        saved := true;
      }
      saving := false;
    }

    /** `hasAnyPrediction`. */
    predicate HasAnyPrediction()
      reads this
    {
      PlacedIds(slots) != []
    }
  }
}
