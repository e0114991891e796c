/**
 * The persisted position record of `ptz_cli.py` (`DEFAULTS`, `load_state`,
 * `save_state`). The JSON file is an abstract store: `None` when it is missing,
 * unreadable or holds no parsable document `dict.update` accepts, otherwise the
 * key/value map it holds (a JSON object, or an array of `[key, value]` pairs,
 * which `dict.update` reads the same way).
 */
module StateStore {
  import opened Common

  /** A state dictionary: field name to number. */
  type Record = map<string, real>

  /** The six fields every state carries. */
  const FIELDS: set<string> := {"pan", "tilt", "pan_min", "pan_max", "tilt_min", "tilt_max"}

  /** `DEFAULTS`. */
  function Defaults(): (d: Record)
    ensures d.Keys == FIELDS
    ensures d["pan"] == 0.0 && d["tilt"] == 0.0
    ensures d["pan_min"] == -90.0 && d["pan_max"] == 90.0
    ensures d["tilt_min"] == -90.0 && d["tilt_max"] == 30.0
  {
    map["pan" := 0.0, "tilt" := 0.0, "pan_min" := -90.0, "pan_max" := 90.0,
        "tilt_min" := -90.0, "tilt_max" := 30.0]
  }

  /** The record holds all six fields (it may hold more). */
  predicate HasAllFields(r: Record) {
    FIELDS <= r.Keys
  }

  /** The six fields as a value. */
  datatype PositionState = PositionState(
    pan: real, tilt: real, panMin: real, panMax: real, tiltMin: real, tiltMax: real)

  /** The dictionary `save_state` writes for a six-field state. */
  function ToRecord(s: PositionState): Record {
    map["pan" := s.pan, "tilt" := s.tilt, "pan_min" := s.panMin, "pan_max" := s.panMax,
        "tilt_min" := s.tiltMin, "tilt_max" := s.tiltMax]
  }

  /** Reads the six fields out of a record that holds them. */
  function FromRecord(r: Record): PositionState
    requires HasAllFields(r)
  {
    PositionState(r["pan"], r["tilt"], r["pan_min"], r["pan_max"], r["tilt_min"], r["tilt_max"])
  }

  /**
   * What `load_state` returns for a given file: `DEFAULTS` overlaid with the file's
   * keys. A missing or unreadable file yields exactly the defaults; otherwise every
   * key of the file wins over the default, every field the file lacks keeps its
   * default, and nothing else appears. Either way all six fields are present.
   */
  function LoadedRecord(file: Option<Record>): (r: Record)
    ensures file.None? ==> r == Defaults()
    ensures file.Some? ==> r.Keys == FIELDS + file.value.Keys
    ensures file.Some? ==> forall k :: k in file.value ==> r[k] == file.value[k]
    ensures file.Some? ==> forall k :: k in FIELDS && k !in file.value ==> r[k] == Defaults()[k]
    ensures HasAllFields(r)
  {
    match file
    case None => Defaults()
    case Some(m) => Defaults() + m
  }

  /**
   * Loading a file that holds all six fields gives back exactly what it holds; in
   * particular saving a six-field state and loading it gives the same six values.
   */
  lemma {:induction false} ReloadRoundTrip(r: Record, s: PositionState)
    ensures HasAllFields(r) ==> LoadedRecord(Some(r)) == r
    ensures HasAllFields(ToRecord(s)) && FromRecord(LoadedRecord(Some(ToRecord(s)))) == s
  {
    if HasAllFields(r) {
      assert (Defaults() + r).Keys == r.Keys;
    }
    assert (Defaults() + ToRecord(s)).Keys == ToRecord(s).Keys;
  }

  /** How `save_state` goes. */
  datatype SaveFault =
    | NoFault      // the whole record is written
    | CannotOpen   // `os.makedirs` or `open(..., 'w')` raises; the file is not touched
    | WriteFails   // the file is opened, and so emptied, but `json.dump` or the close raises

  /**
   * What the file holds after `save_state(state)`: the whole record when it goes
   * through, the old contents when the file cannot be opened, and an empty or
   * truncated document, which no longer parses, when writing fails after the open.
   */
  function SavedContents(before: Option<Record>, state: Record, fault: SaveFault): (after: Option<Record>)
    ensures fault == NoFault ==> after == Some(state)
    ensures fault == CannotOpen ==> after == before
    ensures fault == WriteFails ==> after.None? && LoadedRecord(after) == Defaults()
  {
    match fault
    case NoFault => Some(state)
    case CannotOpen => before
    case WriteFails => None
  }

  /** The state file at `STATE_PATH`. */
  class StateFile {
    /** What the file holds: `None` when it is missing or holds no document `dict.update` accepts. */
    var contents: Option<Record>
    /** How the next `save_state` on it goes. */
    const fault: SaveFault

    constructor (contents: Option<Record>, fault: SaveFault)
      ensures this.contents == contents && this.fault == fault
    {
      this.contents := contents;
      this.fault := fault;
    }

    /** `load_state()`: copy `DEFAULTS`, then `update` it with the file's keys if it can be read. */
    method Load() returns (state: Record)
      ensures state == LoadedRecord(contents)
      ensures HasAllFields(state)
    {
      state := Defaults();
      match contents {
        case Some(m) => state := state + m;
        case None =>
      }
    }

    /**
     * `save_state(state)`: the whole file is replaced by `state`, never patched. When
     * the file cannot be opened the call fails and the old contents stay; when the
     * write fails after `open(..., 'w')` has emptied it, the file no longer parses.
     */
    method Save(state: Record) returns (ok: bool)
      modifies this
      ensures ok <==> fault == NoFault
      ensures contents == SavedContents(old(contents), state, fault)
      ensures !ok ==> contents == old(contents) || LoadedRecord(contents) == Defaults()
    {
      ok := fault == NoFault;
      match fault {
        case NoFault => contents := Some(state);
        case CannotOpen =>
        case WriteFails => contents := None;
      }
    }
  }
}
