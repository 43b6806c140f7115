/**
  The mount controller: the cached mount state and the two INDIGO event
  handlers that fold property vectors into it, the derived status label, the
  UI-rate mapping and the fixed switch-vector commands, the sexagesimal
  formatting of coordinates, and nudge pulses as a step machine over an
  integer millisecond clock.
*/
module Mount {
  import opened Wrappers
  import opened Text
  import opened Protocol

  const Device: string := "Mount Agent"
  const Placeholder: string := "--:--:--"

  /** The site written at start-up (latitude and longitude in degrees, elevation in metres). */
  const GeoLat: real := 35.9132
  const GeoLon: real := -79.0558
  const GeoElev: real := 148.0

  const MinPulseMs: int := 20
  const MaxPulseMs: int := 5000

  // ---------------------------------------------------------------- state

  /** The members of the MOUNT_SLEW_RATE switch group. */
  datatype SlewRate = Guide | Centering | Find | Max

  /** The members in the order the handler scans them and the rate switch lists them. */
  const RateOrder: seq<SlewRate> := [Guide, Centering, Find, Max]

  function RateName(r: SlewRate): string {
    match r
    case Guide => "GUIDE"
    case Centering => "CENTERING"
    case Find => "FIND"
    case Max => "MAX"
  }

  function RateIndex(r: SlewRate): (i: nat)
    ensures i < |RateOrder| && RateOrder[i] == r
  {
    match r
    case Guide => 0
    case Centering => 1
    case Find => 2
    case Max => 3
  }

  datatype Status = Idle | Slewing | Parked

  function StatusLabel(s: Status): string {
    match s
    case Idle => "IDLE"
    case Slewing => "SLEWING"
    case Parked => "PARKED"
  }

  /** The cached `_state` record: RA in hours, the other coordinates in degrees, `None` until first reported. */
  datatype MountState = MountState(
    raH: Option<real>, decDeg: Option<real>, altDeg: Option<real>, azDeg: Option<real>,
    slewRate: SlewRate, parked: bool, movingRa: bool, movingDec: bool)

  const InitialState: MountState := MountState(None, None, None, None, Guide, false, false, false)

  /** The status label: PARKED wins over SLEWING, which wins over IDLE. */
  function StatusOf(s: MountState): (st: Status)
    ensures st == Parked <==> s.parked
    ensures st == Slewing <==> !s.parked && (s.movingRa || s.movingDec)
    ensures st == Idle <==> !s.parked && !s.movingRa && !s.movingDec
  {
    if s.parked then Parked
    else if s.movingRa || s.movingDec then Slewing
    else Idle
  }

  // ---------------------------------------------------------------- formatting

  /**
    Hours (or degrees), minutes and seconds of a value, each taken with `int()`
    of the remaining fraction; for a non-negative value they are a proper
    sexagesimal split.
  */
  function Sexagesimal(v: real): (hms: (int, int, real))
    ensures v >= 0.0 ==> hms.0 >= 0 && 0 <= hms.1 < 60 && 0.0 <= hms.2 < 60.0
    ensures v == hms.0 as real + hms.1 as real / 60.0 + hms.2 / 3600.0
  {
    var whole := Trunc(v);
    var minutesF := (v - whole as real) * 60.0;
    var minutes := Trunc(minutesF);
    var seconds := (minutesF - minutes as real) * 60.0;
    (whole, minutes, seconds)
  }

  /** The three fields `HH:MM:SS.ss` of a sexagesimal split, as both formatters print them. */
  function SexagesimalText(v: real): (s: string)
    ensures |s| > 0 && IsDigit(s[|s| - 1])
  {
    var hms := Sexagesimal(v);
    var sec := Fixed2(hms.2, 5);
    var s := PadInt(hms.0, 2) + ":" + PadInt(hms.1, 2) + ":" + sec;
    assert s[|s| - 1] == sec[|sec| - 1];
    s
  }

  /** `format_ra`: decimal hours as `HH:MM:SS.ss`, or the placeholder when unset. */
  function FormatRa(raH: Option<real>): (s: string)
    ensures raH.None? <==> s == Placeholder
  {
    match raH
    case None => Placeholder
    case Some(ra) => SexagesimalText(ra)
  }

  /** `abs(x)`. */
  function Magnitude(x: real): (m: real)
    ensures m >= 0.0 && (m == x || m == -x)
  {
    if x < 0.0 then -x else x
  }

  /** The sign `format_dec` prints: `-` below zero, `+` otherwise. */
  function SignText(x: real): string {
    if x < 0.0 then "-" else "+"
  }

  /** `format_dec`: decimal degrees as `±DD:MM:SS.ss`, or the placeholder when unset. */
  function FormatDec(decDeg: Option<real>): (s: string)
    ensures decDeg.None? <==> s == Placeholder
    ensures decDeg.Some? ==> |s| > 0 && s[0] == (if decDeg.value < 0.0 then '-' else '+')
  {
    match decDeg
    case None => Placeholder
    case Some(dec) => SignText(dec) + SexagesimalText(Magnitude(dec))
  }

  /** The digits of `format_dec` come from the magnitude alone: `x` and `-x` differ only in the sign character. */
  lemma FormatDecMirror(x: real)
    requires x != 0.0
    ensures FormatDec(Some(x))[1..] == FormatDec(Some(-x))[1..]
    ensures FormatDec(Some(x))[0] != FormatDec(Some(-x))[0]
  {
    assert Magnitude(-x) == Magnitude(x);
    var body := SexagesimalText(Magnitude(x));
    assert FormatDec(Some(x)) == SignText(x) + body;
    assert FormatDec(Some(-x)) == SignText(-x) + body;
  }

  /** The dictionary `get_coordinates` returns and `_emit_coordinates` sends. */
  datatype Coordinates = Coordinates(
    ra: Option<real>, dec: Option<real>, alt: Option<real>, az: Option<real>, raStr: string, decStr: string)

  function CoordinatesOf(s: MountState): Coordinates {
    Coordinates(s.raH, s.decDeg, s.altDeg, s.azDeg,
      if s.raH.Some? then FormatRa(s.raH) else Placeholder,
      if s.decDeg.Some? then FormatDec(s.decDeg) else Placeholder)
  }

  /** The explicit placeholder in `get_coordinates` agrees with the formatters: both strings are plain formatter output. */
  lemma CoordinatesUseFormatters(s: MountState)
    ensures CoordinatesOf(s).raStr == FormatRa(s.raH) && CoordinatesOf(s).decStr == FormatDec(s.decDeg)
    ensures CoordinatesOf(s).raStr == Placeholder <==> s.raH.None?
    ensures CoordinatesOf(s).decStr == Placeholder <==> s.decDeg.None?
  {
  }

  // ---------------------------------------------------------------- commands

  /** `(ui_rate or "solar").lower()` mapped to a slew-rate member. */
  function MapUiRate(uiRate: Option<string>): (r: SlewRate)
    ensures r == Centering <==> uiRate.Some? && Lower(uiRate.value) == "slow"
    ensures r == Max <==> uiRate.Some? && Lower(uiRate.value) == "fast"
    ensures r != Find
  {
    var ui := if uiRate.None? || uiRate.value == "" then "solar" else Lower(uiRate.value);
    if ui == "slow" then Centering else if ui == "fast" then Max else Guide
  }

  /** The mapping ignores letter case. */
  lemma MapUiRateCaseInsensitive(a: string, b: string)
    requires Lower(a) == Lower(b)
    ensures MapUiRate(Some(a)) == MapUiRate(Some(b))
  {
  }

  /** The items of the rate switch: every member, in order, true exactly for the wanted one. */
  function RateSwitch(want: SlewRate): (items: seq<(string, bool)>)
    ensures |items| == |RateOrder|
    ensures forall i :: 0 <= i < |items| ==> items[i].0 == RateName(RateOrder[i])
    ensures forall i :: 0 <= i < |items| ==> (items[i].1 <==> RateOrder[i] == want)
  {
    seq(|RateOrder|, i requires 0 <= i < |RateOrder| => (RateName(RateOrder[i]), RateOrder[i] == want))
  }

  /** Exactly one item of the rate switch is true: the mapped rate's. */
  lemma RateSwitchOneHot(uiRate: Option<string>)
    ensures var items := RateSwitch(MapUiRate(uiRate));
      && items[RateIndex(MapUiRate(uiRate))].1
      && forall i, j :: 0 <= i < j < |items| ==> !(items[i].1 && items[j].1)
  {
  }

  /** `_set_slew_rate_switch(ui_rate)`. */
  function SlewRateCommand(uiRate: Option<string>): Command {
    NewSwitchVector(Device, "MOUNT_SLEW_RATE", RateSwitch(MapUiRate(uiRate)))
  }

  datatype Axis = Ra | Dec

  /** `(direction or "").lower()`. */
  function NormalizeDirection(direction: Option<string>): string {
    if direction.None? then "" else Lower(direction.value)
  }

  /** The axis a direction moves, if it is one of the four cardinal directions. */
  function AxisOf(dir: string): (a: Option<Axis>)
    ensures a == Some(Ra) <==> dir == "east" || dir == "west"
    ensures a == Some(Dec) <==> dir == "north" || dir == "south"
  {
    if dir == "east" || dir == "west" then Some(Ra)
    else if dir == "north" || dir == "south" then Some(Dec)
    else None
  }

  function AxisVector(a: Axis): string {
    match a
    case Ra => "MOUNT_MOTION_RA"
    case Dec => "MOUNT_MOTION_DEC"
  }

  /** The two switch members of an axis's motion vector, in the order they are sent. */
  function AxisMembers(a: Axis): (string, string) {
    match a
    case Ra => ("WEST", "EAST")
    case Dec => ("NORTH", "SOUTH")
  }

  lemma LowerMembers()
    ensures Lower("WEST") == "west" && Lower("EAST") == "east"
    ensures Lower("NORTH") == "north" && Lower("SOUTH") == "south"
  {
    assert Lower("WEST") == ['w', 'e', 's', 't'];
    assert Lower("EAST") == ['e', 'a', 's', 't'];
    assert Lower("NORTH") == ['n', 'o', 'r', 't', 'h'];
    assert Lower("SOUTH") == ['s', 'o', 'u', 't', 'h'];
  }

  /** The vector that starts motion in a direction: the axis's two members, true exactly for the one named by the direction. */
  function MotionCommand(dir: string): (c: Option<Command>)
    ensures c.Some? <==> AxisOf(dir).Some?
    ensures c.Some? ==> (
      && c.value.NewSwitchVector? && c.value.device == Device
      && c.value.name == AxisVector(AxisOf(dir).value)
      && |c.value.switches| == 2
      && c.value.switches[0].0 == AxisMembers(AxisOf(dir).value).0
      && c.value.switches[1].0 == AxisMembers(AxisOf(dir).value).1
      && forall k :: 0 <= k < 2 ==> (c.value.switches[k].1 <==> Lower(c.value.switches[k].0) == dir))
  {
    LowerMembers();
    match AxisOf(dir)
    case None => None
    case Some(Ra) => Some(NewSwitchVector(Device, "MOUNT_MOTION_RA", [("WEST", dir == "west"), ("EAST", dir == "east")]))
    case Some(Dec) => Some(NewSwitchVector(Device, "MOUNT_MOTION_DEC", [("NORTH", dir == "north"), ("SOUTH", dir == "south")]))
  }

  /** The vector that stops an axis: both of its members false. */
  function AxisOff(a: Axis): (c: Command)
    ensures c.NewSwitchVector? && c.name == AxisVector(a) && |c.switches| == 2
    ensures c.switches[0].0 == AxisMembers(a).0 && c.switches[1].0 == AxisMembers(a).1
    ensures !c.switches[0].1 && !c.switches[1].1
  {
    var m := AxisMembers(a);
    NewSwitchVector(Device, AxisVector(a), [(m.0, false), (m.1, false)])
  }

  const AbortCommand: Command := NewSwitchVector(Device, "MOUNT_ABORT_MOTION", [("ABORT_MOTION", true)])

  /** `stop()`'s three sends: DEC off, RA off, then the abort. */
  const StopCommands: seq<Command> := [AxisOff(Dec), AxisOff(Ra), AbortCommand]

  /** `park()` (`park == true`) and `unpark()`: PARKED and UNPARKED set to opposite values. */
  function ParkCommand(park: bool): (c: Command)
    ensures c.NewSwitchVector? && c.name == "MOUNT_PARK"
    ensures c.switches == [("PARKED", park), ("UNPARKED", !park)]
  {
    NewSwitchVector(Device, "MOUNT_PARK", [("PARKED", park), ("UNPARKED", !park)])
  }

  function LocationCommand(lat: real, lon: real, elev: real): Command {
    NewNumberVector(Device, "GEOGRAPHIC_COORDINATES", [("LAT", lat), ("LONG", lon), ("ELEVATION", elev)])
  }

  const PolledNames: seq<string> := [
    "AGENT_MOUNT_EQUATORIAL_COORDINATES", "MOUNT_EQUATORIAL_COORDINATES", "MOUNT_HORIZONTAL_COORDINATES",
    "MOUNT_SLEW_RATE", "MOUNT_MOTION_RA", "MOUNT_MOTION_DEC", "MOUNT_PARK"]

  /** One round of the monitor: a `getProperties` request per polled name, in order. */
  function PollCommands(): (cs: seq<Command>)
    ensures |cs| == |PolledNames|
    ensures forall i :: 0 <= i < |cs| ==> cs[i] == GetProperties(Device, PolledNames[i])
  {
    seq(|PolledNames|, i requires 0 <= i < |PolledNames| => GetProperties(Device, PolledNames[i]))
  }

  /** `max(20, min(ms, 5000))`. */
  function ClampPulse(ms: int): (r: int)
    ensures MinPulseMs <= r <= MaxPulseMs
    ensures MinPulseMs <= ms <= MaxPulseMs ==> r == ms
    ensures ms < MinPulseMs ==> r == MinPulseMs
    ensures ms > MaxPulseMs ==> r == MaxPulseMs
  {
    if ms < MinPulseMs then MinPulseMs else if ms > MaxPulseMs then MaxPulseMs else ms
  }

  lemma ClampPulseIdempotent(ms: int)
    ensures ClampPulse(ClampPulse(ms)) == ClampPulse(ms)
  {
  }

  lemma ClampPulseMonotone(a: int, b: int)
    requires a <= b
    ensures ClampPulse(a) <= ClampPulse(b)
  {
  }

  // ---------------------------------------------------------------- incoming vectors

  /** The item `name` of an items-list element, if it names a string key. */
  predicate NamedAt(e: Json, k: string) {
    e.JObj? && "name" in e.fields && e.fields["name"] == JStr(k)
  }

  /** The elements `{it["name"]: it.get("value") for it in items}` iterates over; `None` when iterating raises. */
  function ItemElements(msg: map<string, Json>): Option<seq<Json>> {
    if "items" !in msg then Some([])
    else match msg["items"]
      case JArr(elems) => Some(elems)
      case JStr(s) => if s == "" then Some([]) else None
      case JObj(f) => if f == map[] then Some([]) else None
      case _ => None
  }

  /**
    The items dictionary built from the elements: later entries win; `None` when
    an element is not an object, lacks `name`, or names an unhashable key.
    Entries keyed by a number, boolean or `null` can never match a member name and are dropped.
  */
  function ItemTable(elems: seq<Json>): Option<map<string, Json>> {
    if elems == [] then Some(map[])
    else
      var last := elems[|elems| - 1];
      match ItemTable(elems[..|elems| - 1])
      case None => None
      case Some(t) =>
        if !last.JObj? || "name" !in last.fields then None
        else match last.fields["name"]
          case JStr(k) => Some(t[k := Get(last.fields, "value")])
          case JArr(_) => None
          case JObj(_) => None
          case _ => Some(t)
  }

  /** A member is in the table exactly when some element names it, and its value is the last such element's. */
  lemma {:induction false} ItemTableLastWins(elems: seq<Json>, k: string)
    requires ItemTable(elems).Some?
    ensures k in ItemTable(elems).value <==> exists i :: 0 <= i < |elems| && NamedAt(elems[i], k)
    ensures k in ItemTable(elems).value ==> exists i :: (
      && 0 <= i < |elems| && NamedAt(elems[i], k)
      && ItemTable(elems).value[k] == Get(elems[i].fields, "value")
      && forall j :: i < j < |elems| ==> !NamedAt(elems[j], k))
    decreases |elems|
  {
    if elems != [] {
      var n := |elems| - 1;
      var init := elems[..n];
      ItemTableLastWins(init, k);
      var t, t0 := ItemTable(elems).value, ItemTable(init).value;
      if NamedAt(elems[n], k) {
        assert t[k] == Get(elems[n].fields, "value");
      } else {
        assert (k in t <==> k in t0) && (k in t ==> t[k] == t0[k]);
        if k in t0 {
          var i :| 0 <= i < n && NamedAt(init[i], k) && t0[k] == Get(init[i].fields, "value")
                   && forall j :: i < j < n ==> !NamedAt(init[j], k);
          assert elems[i] == init[i];
          forall j | i < j < |elems| ensures !NamedAt(elems[j], k) {
            if j < n {
              assert elems[j] == init[j];
            }
          }
        }
        if exists i :: 0 <= i < |elems| && NamedAt(elems[i], k) {
          var i :| 0 <= i < |elems| && NamedAt(elems[i], k);
          assert init[i] == elems[i];
        }
      }
    }
  }

  /** Python's `float(v)` for a decoded JSON value; `None` where it raises. */
  function ToFloat(v: Json): Option<real> {
    match v
    case JNum(n) => Some(n)
    case JBool(b) => Some(if b then 1.0 else 0.0)
    case _ => None
  }

  /** Outcome of a number-vector update: it completed, or `float()` raised after the updates before it. */
  datatype Update = Applied(state: MountState, changed: bool) | Raised(state: MountState)

  /** One coordinate field: an absent or `null` item keeps it; a different value replaces it. */
  function UpdateField(cur: Option<real>, v: Json): Option<(Option<real>, bool)> {
    if v == JNull then Some((cur, false))
    else match ToFloat(v)
      case None => None
      case Some(f) => if Some(f) != cur then Some((Some(f), true)) else Some((cur, false))
  }

  /** The coordinate fields of the cache. */
  datatype Field = RaField | DecField | AltField | AzField

  function FieldOf(s: MountState, f: Field): Option<real> {
    match f
    case RaField => s.raH
    case DecField => s.decDeg
    case AltField => s.altDeg
    case AzField => s.azDeg
  }

  function WithField(s: MountState, f: Field, v: Option<real>): (r: MountState)
    ensures FieldOf(r, f) == v
    ensures FieldOf(s, f) == v ==> r == s
  {
    match f
    case RaField => s.(raH := v)
    case DecField => s.(decDeg := v)
    case AltField => s.(altDeg := v)
    case AzField => s.(azDeg := v)
  }

  /** Two coordinate fields updated in turn from their items; a raise in the second keeps the first. */
  function PairUpdate(s: MountState, f1: Field, k1: string, f2: Field, k2: string, items: map<string, Json>): Update
    requires f1 != f2
  {
    match UpdateField(FieldOf(s, f1), Get(items, k1))
    case None => Raised(s)
    case Some((v1, c1)) =>
      var s1 := WithField(s, f1, v1);
      match UpdateField(FieldOf(s1, f2), Get(items, k2))
      case None => Raised(s1)
      case Some((v2, c2)) => Applied(WithField(s1, f2, v2), c1 || c2)
  }

  predicate Equatorial(name: Json) {
    name == JStr("AGENT_MOUNT_EQUATORIAL_COORDINATES") || name == JStr("MOUNT_EQUATORIAL_COORDINATES")
  }

  /**
    The state after `_handle_number_vector`'s updates for a vector `name` with
    the given items. Only the equatorial vectors touch RA/DEC and only
    MOUNT_HORIZONTAL_COORDINATES touches ALT/AZ; an absent item keeps its
    field; `changed` holds exactly when the state differs from before.
  */
  function NumberUpdate(s: MountState, name: Json, items: map<string, Json>): (u: Update)
    ensures u.state.slewRate == s.slewRate && u.state.parked == s.parked
    ensures u.state.movingRa == s.movingRa && u.state.movingDec == s.movingDec
    ensures !Equatorial(name) ==> u.state.raH == s.raH && u.state.decDeg == s.decDeg
    ensures name != JStr("MOUNT_HORIZONTAL_COORDINATES") ==> u.state.altDeg == s.altDeg && u.state.azDeg == s.azDeg
    ensures u.Applied? ==> (u.changed <==> u.state != s)
  {
    if Equatorial(name) then PairUpdate(s, RaField, "RA", DecField, "DEC", items)
    else if name == JStr("MOUNT_HORIZONTAL_COORDINATES") then PairUpdate(s, AltField, "ALT", AzField, "AZ", items)
    else Applied(s, false)
  }

  /** What the number handler writes into each coordinate, and exactly when `float()` raises. */
  lemma NumberUpdateItems(s: MountState, name: Json, items: map<string, Json>)
    ensures NumberUpdate(s, name, items).Applied? && Equatorial(name) ==>
      (Get(items, "RA") == JNull ==> NumberUpdate(s, name, items).state.raH == s.raH)
      && (Get(items, "DEC") == JNull ==> NumberUpdate(s, name, items).state.decDeg == s.decDeg)
      && (Get(items, "RA") != JNull ==> NumberUpdate(s, name, items).state.raH == ToFloat(Get(items, "RA")))
      && (Get(items, "DEC") != JNull ==> NumberUpdate(s, name, items).state.decDeg == ToFloat(Get(items, "DEC")))
    ensures NumberUpdate(s, name, items).Applied? && name == JStr("MOUNT_HORIZONTAL_COORDINATES") ==>
      (Get(items, "ALT") == JNull ==> NumberUpdate(s, name, items).state.altDeg == s.altDeg)
      && (Get(items, "AZ") == JNull ==> NumberUpdate(s, name, items).state.azDeg == s.azDeg)
      && (Get(items, "ALT") != JNull ==> NumberUpdate(s, name, items).state.altDeg == ToFloat(Get(items, "ALT")))
      && (Get(items, "AZ") != JNull ==> NumberUpdate(s, name, items).state.azDeg == ToFloat(Get(items, "AZ")))
    ensures NumberUpdate(s, name, items).Raised? <==>
      (Equatorial(name) && ((Get(items, "RA") != JNull && ToFloat(Get(items, "RA")).None?)
                            || (Get(items, "DEC") != JNull && ToFloat(Get(items, "DEC")).None?)))
      || (name == JStr("MOUNT_HORIZONTAL_COORDINATES")
          && ((Get(items, "ALT") != JNull && ToFloat(Get(items, "ALT")).None?)
              || (Get(items, "AZ") != JNull && ToFloat(Get(items, "AZ")).None?)))
  {
    if Equatorial(name) {
      assert NumberUpdate(s, name, items) == PairUpdate(s, RaField, "RA", DecField, "DEC", items);
    } else if name == JStr("MOUNT_HORIZONTAL_COORDINATES") {
      assert NumberUpdate(s, name, items) == PairUpdate(s, AltField, "ALT", AzField, "AZ", items);
    }
  }

  /** The first member in GUIDE, CENTERING, FIND, MAX order whose item is truthy. */
  function FirstTrueRate(items: map<string, Json>): (r: Option<SlewRate>)
    ensures r.Some? ==> Truthy(Get(items, RateName(r.value)))
    ensures r.Some? ==> forall j :: 0 <= j < RateIndex(r.value) ==> !Truthy(Get(items, RateName(RateOrder[j])))
    ensures r.None? ==> forall j :: 0 <= j < |RateOrder| ==> !Truthy(Get(items, RateName(RateOrder[j])))
  {
    if Truthy(Get(items, "GUIDE")) then Some(Guide)
    else if Truthy(Get(items, "CENTERING")) then Some(Centering)
    else if Truthy(Get(items, "FIND")) then Some(Find)
    else if Truthy(Get(items, "MAX")) then Some(Max)
    else None
  }

  /**
    The state after `_handle_switch_vector` for a vector `name`: the slew rate
    becomes the first truthy member (unchanged if none is), motion flags become
    the disjunction of their axis's members, `parked` becomes PARKED; any
    other name, and every other field, is left alone.
  */
  function SwitchUpdate(s: MountState, name: Json, items: map<string, Json>): (r: MountState)
    ensures name == JStr("MOUNT_SLEW_RATE") ==>
      r == s.(slewRate := if FirstTrueRate(items).Some? then FirstTrueRate(items).value else s.slewRate)
    ensures name == JStr("MOUNT_MOTION_RA") ==> r == s.(movingRa := Truthy(Get(items, "WEST")) || Truthy(Get(items, "EAST")))
    ensures name == JStr("MOUNT_MOTION_DEC") ==> r == s.(movingDec := Truthy(Get(items, "NORTH")) || Truthy(Get(items, "SOUTH")))
    ensures name == JStr("MOUNT_PARK") ==> r == s.(parked := Truthy(Get(items, "PARKED")))
    ensures name !in {JStr("MOUNT_SLEW_RATE"), JStr("MOUNT_MOTION_RA"), JStr("MOUNT_MOTION_DEC"), JStr("MOUNT_PARK")} ==> r == s
  {
    match name
    case JStr("MOUNT_SLEW_RATE") =>
      (match FirstTrueRate(items) case Some(rate) => s.(slewRate := rate) case None => s)
    case JStr("MOUNT_MOTION_RA") => s.(movingRa := Truthy(Get(items, "WEST")) || Truthy(Get(items, "EAST")))
    case JStr("MOUNT_MOTION_DEC") => s.(movingDec := Truthy(Get(items, "NORTH")) || Truthy(Get(items, "SOUTH")))
    case JStr("MOUNT_PARK") => s.(parked := Truthy(Get(items, "PARKED")))
    case _ => s
  }

  /** What the controller emits to the UI. */
  datatype MountEvent = StatusEvent(status: Status) | CoordinatesEvent(coords: Coordinates)

  /** A nudge pulse in progress: the axis it moves, when its timing started and its clamped length. */
  datatype Pulse = Pulse(axis: Axis, startMs: int, durationMs: int)

  class MountControl {
    var state: MountState
    /** `_pulse_active`. */
    var pulseActive: bool
    /** The pulse thread, while it runs. */
    var pulse: Option<Pulse>
    /** Every message handed to `client.send`, in order (all of them with `quiet=True`). */
    var outbox: seq<Command>
    var events: seq<MountEvent>
    var monRunning: bool
    /** `client.close()` has been called. */
    var clientClosed: bool

    /** Only a running pulse can be active, and its length is within the clamp. */
    predicate Valid()
      reads this
    {
      (pulse.None? ==> !pulseActive)
      && (pulse.Some? ==> MinPulseMs <= pulse.value.durationMs <= MaxPulseMs)
    }

    /** `__init__`: writes the site, starts from the initial cache and starts the monitor. */
    constructor ()
      ensures Valid()
      ensures state == InitialState && !pulseActive && pulse.None?
      ensures outbox == [LocationCommand(GeoLat, GeoLon, GeoElev)] && events == []
      ensures monRunning && !clientClosed
    {
      state := InitialState;
      pulseActive, pulse := false, None;
      outbox := [LocationCommand(GeoLat, GeoLon, GeoElev)];
      events := [];
      monRunning, clientClosed := true, false;
    }

    /** `set_location(lat, lon, elev)`: one GEOGRAPHIC_COORDINATES vector. */
    method SetLocation(lat: real, lon: real, elev: real)
      modifies this`outbox
      ensures outbox == old(outbox) + [LocationCommand(lat, lon, elev)]
    {
      outbox := outbox + [LocationCommand(lat, lon, elev)];
    }

    /** `get_status()`. */
    method GetStatus() returns (status: string)
      ensures status == StatusLabel(StatusOf(state))
      ensures status == "PARKED" <==> state.parked
    {
      if state.parked {
        return "PARKED";
      }
      if state.movingRa || state.movingDec {
        return "SLEWING";
      }
      return "IDLE";
    }

    /** `get_coordinates(emit)`: the cached coordinates, also emitted when `emit`. */
    method GetCoordinates(emit: bool) returns (c: Coordinates)
      modifies this`events
      ensures c == CoordinatesOf(state)
      ensures c.raStr == FormatRa(state.raH) && c.decStr == FormatDec(state.decDeg)
      ensures events == old(events) + (if emit then [CoordinatesEvent(c)] else [])
    {
      CoordinatesUseFormatters(state);
      c := CoordinatesOf(state);
      if emit {
        events := events + [CoordinatesEvent(c)];
      }
    }

    /**
      `_handle_number_vector(msg)`. Another device's vector is ignored. Otherwise
      the items table is built (raising on a malformed list), the coordinates
      are updated field by field, the coordinates are emitted if anything
      changed and the status is emitted. `raised` reports an exception escaping
      the handler; the fields updated before it keep their new values.
    */
    method HandleNumberVector(msg: map<string, Json>) returns (raised: bool)
      modifies this`state, this`events
      ensures Get(msg, "device") != JStr(Device) ==> !raised && state == old(state) && events == old(events)
      ensures Get(msg, "device") == JStr(Device) ==>
        var table := if ItemElements(msg).Some? then ItemTable(ItemElements(msg).value) else None;
        (table.None? ==> raised && state == old(state) && events == old(events))
        && (table.Some? ==>
          var u := NumberUpdate(old(state), Get(msg, "name"), table.value);
          raised == u.Raised? && state == u.state
          && events == old(events) + (if u.Raised? then []
                                      else (if u.changed then [CoordinatesEvent(CoordinatesOf(state))] else [])
                                           + [StatusEvent(StatusOf(state))]))
    {
      if Get(msg, "device") != JStr(Device) {
        return false;
      }
      var name := Get(msg, "name");
      var elems := ItemElements(msg);
      if elems.None? || ItemTable(elems.value).None? {
        return true;
      }
      raised := ApplyNumber(name, ItemTable(elems.value).value);
    }

    /** The number handler once its items table is built: update the coordinates, then emit. */
    method ApplyNumber(name: Json, items: map<string, Json>) returns (raised: bool)
      modifies this`state, this`events
      ensures var u := NumberUpdate(old(state), name, items);
        raised == u.Raised? && state == u.state
        && events == old(events) + (if u.Raised? then []
                                    else (if u.changed then [CoordinatesEvent(CoordinatesOf(state))] else [])
                                         + [StatusEvent(StatusOf(state))])
    {
      var changed := false;
      raised := false;
      if Equatorial(name) {
        raised, changed := SetPair(RaField, "RA", DecField, "DEC", items);
      } else if name == JStr("MOUNT_HORIZONTAL_COORDINATES") {
        raised, changed := SetPair(AltField, "ALT", AzField, "AZ", items);
      }
      if raised {
        return;
      }
      if changed {
        events := events + [CoordinatesEvent(CoordinatesOf(state))];
      }
      events := events + [StatusEvent(StatusOf(state))];
    }

    /** Two fields of the number handler in turn; a raise in the second keeps the first. */
    method SetPair(f1: Field, k1: string, f2: Field, k2: string, items: map<string, Json>) returns (raised: bool, changed: bool)
      requires f1 != f2
      modifies this`state
      ensures var u := PairUpdate(old(state), f1, k1, f2, k2, items);
        raised == u.Raised? && state == u.state && (u.Applied? ==> changed == u.changed)
    {
      var raised1, changed1 := SetCoordinate(f1, Get(items, k1));
      if raised1 {
        return true, false;
      }
      var raised2, changed2 := SetCoordinate(f2, Get(items, k2));
      if raised2 {
        return true, false;
      }
      return false, changed1 || changed2;
    }

    /** One field of the number handler: `None` keeps it, `float(v)` replaces it when different, or raises. */
    method SetCoordinate(f: Field, v: Json) returns (raised: bool, changed: bool)
      modifies this`state
      ensures var r := UpdateField(FieldOf(old(state), f), v);
        && raised == r.None?
        && (r.None? ==> state == old(state))
        && (r.Some? ==> state == WithField(old(state), f, r.value.0) && changed == r.value.1)
    {
      raised, changed := false, false;
      if v != JNull {
        var x := ToFloat(v);
        if x.None? {
          return true, false;
        }
        if Some(x.value) != FieldOf(state, f) {
          state := WithField(state, f, Some(x.value));
          changed := true;
        }
      }
    }

    /**
      `_handle_switch_vector(msg)`: another device's vector is ignored;
      otherwise the items table is built, the matching field is updated (the
      slew rate by scanning the members in order) and the status is emitted.
    */
    method HandleSwitchVector(msg: map<string, Json>) returns (raised: bool)
      modifies this`state, this`events
      ensures Get(msg, "device") != JStr(Device) ==> !raised && state == old(state) && events == old(events)
      ensures Get(msg, "device") == JStr(Device) ==>
        var table := if ItemElements(msg).Some? then ItemTable(ItemElements(msg).value) else None;
        (table.None? ==> raised && state == old(state) && events == old(events))
        && (table.Some? ==> !raised && state == SwitchUpdate(old(state), Get(msg, "name"), table.value)
                            && events == old(events) + [StatusEvent(StatusOf(state))])
    {
      if Get(msg, "device") != JStr(Device) {
        return false;
      }
      var name := Get(msg, "name");
      var elems := ItemElements(msg);
      if elems.None? || ItemTable(elems.value).None? {
        return true;
      }
      var items := ItemTable(elems.value).value;
      if name == JStr("MOUNT_SLEW_RATE") {
        var i := 0;
        while i < |RateOrder|
          invariant 0 <= i <= |RateOrder|
          invariant forall j :: 0 <= j < i ==> !Truthy(Get(items, RateName(RateOrder[j])))
          invariant state == old(state)
        {
          if Truthy(Get(items, RateName(RateOrder[i]))) {
            state := state.(slewRate := RateOrder[i]);
            break;
          }
          i := i + 1;
        }
      } else if name == JStr("MOUNT_MOTION_RA") {
        state := state.(movingRa := Truthy(Get(items, "WEST")) || Truthy(Get(items, "EAST")));
      } else if name == JStr("MOUNT_MOTION_DEC") {
        state := state.(movingDec := Truthy(Get(items, "NORTH")) || Truthy(Get(items, "SOUTH")));
      } else if name == JStr("MOUNT_PARK") {
        state := state.(parked := Truthy(Get(items, "PARKED")));
      }
      events := events + [StatusEvent(StatusOf(state))];
      raised := false;
    }

    /** `slew(direction, rate)`: the rate switch, then the motion vector unless the direction is invalid. */
    method Slew(direction: Option<string>, rate: Option<string>)
      modifies this`outbox
      ensures var m := MotionCommand(NormalizeDirection(direction));
        outbox == old(outbox) + [SlewRateCommand(rate)] + (if m.Some? then [m.value] else [])
    {
      var dir := NormalizeDirection(direction);
      outbox := outbox + [SlewRateCommand(rate)];
      var m := MotionCommand(dir);
      if m.Some? {
        outbox := outbox + [m.value];
      }
    }

    /**
      `stop()`: clears the pulse flag first, then sends DEC off, RA off and
      the abort. A running pulse notices the cleared flag at its next tick.
    */
    method Stop()
      requires Valid()
      modifies this`pulseActive, this`outbox
      ensures Valid()
      ensures !pulseActive && outbox == old(outbox) + StopCommands
    {
      pulseActive := false;
      outbox := outbox + StopCommands;
    }

    /**
      `nudge(direction, ms, rate)` at clock `now`. Any running pulse is
      cancelled and, in the grace period the nudge waits, sends its axis-off
      vector and ends. The new pulse sends the rate switch and, for a valid
      direction, the motion vector and runs for the clamped length; for an
      invalid direction it ends at once and leaves the flag cleared.
    */
    method Nudge(direction: Option<string>, ms: int, rate: Option<string>, now: int)
      requires Valid()
      modifies this`pulseActive, this`pulse, this`outbox
      ensures Valid()
      ensures var dir := NormalizeDirection(direction);
        var ended := if old(pulse).Some? then [AxisOff(old(pulse).value.axis)] else [];
        var m := MotionCommand(dir);
        && outbox == old(outbox) + ended + [SlewRateCommand(rate)] + (if m.Some? then [m.value] else [])
        && (m.Some? ==> pulseActive && pulse == Some(Pulse(AxisOf(dir).value, now, ClampPulse(ms))))
        && (m.None? ==> !pulseActive && pulse.None?)
    {
      var dir := NormalizeDirection(direction);
      var duration := ClampPulse(ms);
      pulseActive := false;
      if pulse.Some? {
        outbox := outbox + [AxisOff(pulse.value.axis)];
        pulse := None;
      }
      pulseActive := true;
      outbox := outbox + [SlewRateCommand(rate)];
      var m := MotionCommand(dir);
      if m.Some? {
        outbox := outbox + [m.value];
        pulse := Some(Pulse(AxisOf(dir).value, now, duration));
      } else {
        pulseActive := false;
      }
    }

    /**
      One poll of the pulse loop at clock `now`: once the flag is cleared or
      the length has elapsed, the pulse sends its axis-off vector, clears the
      flag and ends; otherwise nothing happens.
    */
    method PulseTick(now: int)
      requires Valid()
      modifies this`pulseActive, this`pulse, this`outbox
      ensures Valid()
      ensures old(pulse).None? ==> pulse == old(pulse) && pulseActive == old(pulseActive) && outbox == old(outbox)
      ensures old(pulse).Some? && (!old(pulseActive) || now - old(pulse).value.startMs >= old(pulse).value.durationMs) ==>
        pulse.None? && !pulseActive && outbox == old(outbox) + [AxisOff(old(pulse).value.axis)]
      ensures old(pulse).Some? && old(pulseActive) && now - old(pulse).value.startMs < old(pulse).value.durationMs ==>
        pulse == old(pulse) && pulseActive && outbox == old(outbox)
    {
      if pulse.Some? {
        var p := pulse.value;
        if !pulseActive || now - p.startMs >= p.durationMs {
          outbox := outbox + [AxisOff(p.axis)];
          pulseActive := false;
          pulse := None;
        }
      }
    }

    /** `park()`. */
    method Park()
      modifies this`outbox
      ensures outbox == old(outbox) + [ParkCommand(true)]
    {
      outbox := outbox + [ParkCommand(true)];
    }

    /** `unpark()`. */
    method Unpark()
      modifies this`outbox
      ensures outbox == old(outbox) + [ParkCommand(false)]
    {
      outbox := outbox + [ParkCommand(false)];
    }

    /** One pass of the monitor loop: while it runs, every polled name is requested. */
    method MonitorPoll()
      modifies this`outbox
      ensures outbox == old(outbox) + (if monRunning then PollCommands() else [])
    {
      if monRunning {
        var i := 0;
        while i < |PolledNames|
          invariant 0 <= i <= |PolledNames|
          invariant outbox == old(outbox) + PollCommands()[..i]
        {
          outbox := outbox + [GetProperties(Device, PolledNames[i])];
          i := i + 1;
          assert PollCommands()[..i] == PollCommands()[..i - 1] + [PollCommands()[i - 1]];
        }
        assert PollCommands()[..|PolledNames|] == PollCommands();
      }
    }

    /** `shutdown()`: stops the monitor, stops all motion, closes the client. */
    method Shutdown()
      requires Valid()
      modifies this`monRunning, this`pulseActive, this`outbox, this`clientClosed
      ensures Valid()
      ensures !monRunning && !pulseActive && clientClosed && outbox == old(outbox) + StopCommands
    {
      monRunning := false;
      Stop();
      clientClosed := true;
    }
  }
}
