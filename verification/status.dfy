/**
 The fixed table of order statuses, the lookup map built from it, and the
 total status-metadata lookup used for list rows and detail badges.
 */
module OrderStatus {
  import opened Wrappers

  /** One entry of the status table: the stored value, its display caption (the source's `label`) and badge colour. */
  datatype StatusOption = StatusOption(value: string, caption: string, badge: string)

  /** The `status` field of an order document: missing, explicitly null, or a string. */
  datatype StatusField = Absent | Null | Str(text: string)

  const Pending   := StatusOption("pending", "Chưa xử lý", "secondary")
  const Packed    := StatusOption("packed", "Đã đóng gói", "info")
  const Shipping  := StatusOption("shipping", "Đang giao", "primary")
  const Completed := StatusOption("completed", "Hoàn thành", "success")
  const Failed    := StatusOption("failed", "Thất bại", "danger")

  /** The status table, in display order. */
  const Options: seq<StatusOption> := [Pending, Packed, Shipping, Completed, Failed]

  /** The five recognised status values, written out independently of the table. */
  const StatusValues: set<string> := {"pending", "packed", "shipping", "completed", "failed"}

  /** No two entries of a table share a value. */
  ghost predicate DistinctValues(opts: seq<StatusOption>) {
    forall i, j :: 0 <= i < j < |opts| ==> opts[i].value != opts[j].value
  }

  /**
   Folds a table into a map from value to entry, front to back, each entry
   overwriting any earlier entry with the same value.
   */
  function BuildStatusMap(opts: seq<StatusOption>): (m: map<string, StatusOption>)
    ensures forall i :: 0 <= i < |opts| ==> opts[i].value in m
    ensures forall k :: k in m ==> m[k].value == k && m[k] in opts
  {
    if |opts| == 0 then map[]
    else
      var init := opts[..|opts| - 1];
      var last := opts[|opts| - 1];
      assert opts == init + [last];
      BuildStatusMap(init)[last.value := last]
  }

  /** The lookup map built once from the table. */
  function StatusMap(): map<string, StatusOption> {
    BuildStatusMap(Options)
  }

  /** With distinct values, the map built from a table sends each value to its own entry. */
  lemma BuildStatusMapDistinct(opts: seq<StatusOption>)
    requires DistinctValues(opts)
    ensures forall i :: 0 <= i < |opts| ==> BuildStatusMap(opts)[opts[i].value] == opts[i]
  {
  }

  /** The five values of the table are distinct. */
  lemma OptionsDistinct()
    ensures DistinctValues(Options)
  {
  }

  /** A map whose entries are table rows under their own values has only the five values as keys. */
  lemma KeysNamedByOptions(m: map<string, StatusOption>)
    requires forall k :: k in m ==> m[k].value == k && m[k] in Options
    ensures m.Keys <= StatusValues
  {
  }

  /** The key half of `StatusMapFaithful`, kept apart so that each proof stays small. */
  lemma StatusMapKeys()
    ensures StatusMap().Keys == StatusValues
  {
    var m := StatusMap();
    KeysNamedByOptions(m);
    assert Options[0].value in m && Options[1].value in m && Options[2].value in m;
    assert Options[3].value in m && Options[4].value in m;
  }

  /** The map built from the table has exactly the five values as keys, each mapped to its own entry. */
  lemma StatusMapFaithful()
    ensures StatusMap().Keys == StatusValues
    ensures forall i :: 0 <= i < |Options| ==> StatusMap()[Options[i].value] == Options[i]
  {
    StatusMapKeys();
    OptionsDistinct();
    BuildStatusMapDistinct(Options);
  }

  /** A string is a recognised status value exactly when the lookup map has it as a key. */
  predicate IsStatusValue(s: string) {
    s in StatusMap()
  }

  lemma IsStatusValueIsTable(s: string)
    ensures IsStatusValue(s) <==> s in StatusValues
  {
    StatusMapFaithful();
  }

  /**
   The status metadata of a status field: the entry whose value it is, or
   the `pending` entry when the field is missing, null, empty or unknown.
   */
  function GetStatusMeta(status: StatusField): (r: StatusOption)
    ensures r in Options
    ensures status.Str? && status.text in StatusValues ==> r.value == status.text
    ensures !(status.Str? && status.text in StatusValues) ==> r == Pending
  {
    StatusMapFaithful();
    match status
    case Str(s) => if s in StatusMap() then StatusMap()[s] else StatusMap()["pending"]
    case _ => StatusMap()["pending"]
  }
}
