/**
 * The rename tables and the shaping of an attribute payload before it is
 * handed on: the entity-id rename, the friendly-name rename, and the
 * mean/min/max fields added to an aggregated-statistic row.
 */
module Attributes {
  import opened Values

  /** The entity-id rename table (homeassistant2influxdb.py:37-39). */
  const EntityRenames: map<string, string> := map["sensor.old_entity_name" := "sensor.new_entity_name"]

  /** The friendly-name rename table (homeassistant2influxdb.py:53-55). */
  const FriendlyNameRenames: map<string, string> := map["Old Sensor Name" := "New Sensor Name"]

  const FriendlyNameKey: string := "friendly_name"

  /** The three keys an aggregated-statistic row overwrites. */
  const StatisticKeys: set<string> := {"mean", "min", "max"}

  /** `rename_entity_id`: a total lookup that answers the id itself on a miss. */
  function RenameEntityId(oldName: string): (r: string)
    ensures oldName !in EntityRenames ==> r == oldName
    ensures oldName in EntityRenames ==> r == EntityRenames[oldName]
    ensures r in EntityRenames.Values || r == oldName
  {
    if oldName in EntityRenames then EntityRenames[oldName] else oldName
  }

  /** `rename_entity_id` applied to a raw column: only a string can be a key
      of the table, so any other value is returned unchanged. */
  function RenameEntityValue(v: Scalar): (r: Scalar)
    ensures r.Str? <==> v.Str?
    ensures !(v.Str? && v.s in EntityRenames) ==> r == v
    ensures v.Str? ==> r.s == RenameEntityId(v.s)
  {
    match v
    case Str(s) => Str(RenameEntityId(s))
    case _ => v
  }

  /** The value a friendly name is replaced by: its entry in the table, or
      itself when it is not a string listed there. */
  function RenamedFriendlyValue(v: Scalar): (r: Scalar)
    ensures v.Str? && v.s in FriendlyNameRenames ==> r == Str(FriendlyNameRenames[v.s])
    ensures !(v.Str? && v.s in FriendlyNameRenames) ==> r == v
  {
    if v.Str? && v.s in FriendlyNameRenames then Str(FriendlyNameRenames[v.s]) else v
  }

  /** `rename_friendly_name`: only the "friendly_name" entry can change, no
      key is added or removed, and every other entry is left as it was. */
  function RenameFriendlyName(attrs: Attrs): (r: Attrs)
    ensures r.Keys == attrs.Keys
    ensures forall k :: k in attrs && k != FriendlyNameKey ==> r[k] == attrs[k]
    ensures FriendlyNameKey in attrs ==> r[FriendlyNameKey] == RenamedFriendlyValue(attrs[FriendlyNameKey])
    ensures r != attrs ==> FriendlyNameKey in attrs && attrs[FriendlyNameKey].Str?
                           && attrs[FriendlyNameKey].s in FriendlyNameRenames
  {
    if FriendlyNameKey in attrs && attrs[FriendlyNameKey].Str? && attrs[FriendlyNameKey].s in FriendlyNameRenames
    then attrs[FriendlyNameKey := Str(FriendlyNameRenames[attrs[FriendlyNameKey].s])]
    else attrs
  }

  /** `create_statistics_attributes`: the renamed payload with "mean", "min"
      and "max" set to the row's values, overwriting same-named entries. */
  function CreateStatisticsAttributes(mean: Scalar, min: Scalar, max: Scalar, attrs: Attrs): (r: Attrs)
    ensures r.Keys == attrs.Keys + StatisticKeys
    ensures r["mean"] == mean && r["min"] == min && r["max"] == max
    ensures forall k :: k in attrs && k !in StatisticKeys ==> r[k] == RenameFriendlyName(attrs)[k]
  {
    RenameFriendlyName(attrs)["mean" := mean]["min" := min]["max" := max]
  }

  /** The statistic attributes are the renamed payload united, right-biased,
      with a map of exactly the three statistic entries. */
  lemma StatisticsAttributesAreRightBiasedUnion(mean: Scalar, min: Scalar, max: Scalar, attrs: Attrs)
    ensures CreateStatisticsAttributes(mean, min, max, attrs)
            == RenameFriendlyName(attrs) + map["mean" := mean, "min" := min, "max" := max]
  {
  }

  /** No renamed id is itself renamed again: one pass of the table is final. */
  lemma RenameEntityIdIsIdempotent(id: string)
    ensures RenameEntityId(RenameEntityId(id)) == RenameEntityId(id)
  {
  }

  /** The same for friendly names. */
  lemma RenameFriendlyNameIsIdempotent(attrs: Attrs)
    ensures RenameFriendlyName(RenameFriendlyName(attrs)) == RenameFriendlyName(attrs)
  {
  }

  /** A decoded attribute dictionary that the rename helpers change in place,
      as the Python functions do with the dict they are given. */
  class AttrDict {
    var entries: Attrs

    constructor (entries: Attrs)
      ensures this.entries == entries
    {
      this.entries := entries;
    }

    /** `rename_friendly_name` on this dictionary. */
    method RenameFriendlyNameInPlace()
      modifies this
      ensures entries == RenameFriendlyName(old(entries))
    {
      if FriendlyNameKey in entries && entries[FriendlyNameKey].Str? {
        var name := entries[FriendlyNameKey].s;
        if name in FriendlyNameRenames {
          entries := entries[FriendlyNameKey := Str(FriendlyNameRenames[name])];
        }
      }
    }

    /** `create_statistics_attributes` on this dictionary. */
    method CreateStatisticsAttributesInPlace(mean: Scalar, min: Scalar, max: Scalar)
      modifies this
      ensures entries == CreateStatisticsAttributes(mean, min, max, old(entries))
    {
      RenameFriendlyNameInPlace();
      entries := entries["mean" := mean];
      entries := entries["min" := min];
      entries := entries["max" := max];
    }
  }

}
