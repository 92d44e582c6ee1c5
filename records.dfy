/**
 * The record a generator inspects: a JSON document of which only the fields
 * read by the generators are modelled.  A field that may be missing is an
 * Option; every accessor gives the default that the code's `dict.get` uses.
 */
module Records {
  import opened Wrappers

  /** One identity of an access-level list: `{"scheme": ..., "id": ...}`. */
  datatype LevelEntry = LevelEntry(scheme: Option<string>, id: Option<string>)

  /** The `_access` object. */
  datatype Access = Access(metadataRestricted: Option<bool>)

  /** The `internal` object; `accessLevels` maps a level name to its identities. */
  datatype Internal = Internal(accessLevels: Option<map<string, seq<LevelEntry>>>)

  datatype Record = Record(
    appliedRestrictions: Option<seq<string>>,  // "applied_restrictions"
    owners: Option<seq<string>>,               // "owners"
    groupRestrictions: Option<seq<string>>,    // "group_restrictions"
    access: Option<Access>,                    // "_access"
    internal: Option<Internal>)                // "internal"

  /** What a generator's `needs` raises when it calls `record.get` on a missing
      record (`AttributeError` on `None`). */
  datatype Error = RecordMissing

  function Restrictions(r: Record): seq<string> {
    r.appliedRestrictions.GetOr([])
  }

  function Owners(r: Record): seq<string> {
    r.owners.GetOr([])
  }

  function GroupRestrictions(r: Record): seq<string> {
    r.groupRestrictions.GetOr([])
  }

  /** `record.get("_access", {}).get("metadata_restricted", False)`. */
  predicate MetadataRestricted(r: Record) {
    r.access.Some? && r.access.value.metadataRestricted == Some(true)
  }

  /** `record.get("internal", {}).get("access_levels", {}).get(level, [])`. */
  function LevelEntries(r: Record, level: string): seq<LevelEntry> {
    match r.internal
    case None => []
    case Some(internal) =>
      match internal.accessLevels
      case None => []
      case Some(levels) => if level in levels then levels[level] else []
  }
}
