/**
 * The medical records screen: the list shown is the record list filtered by
 * the selected category and a case-insensitive search over title and doctor;
 * each record's status picks a badge class.
 */
module MedicalRecords {
  import opened JsText
  import opened Sequences

  datatype MedicalRecord = MedicalRecord(
    id: int,
    recordType: string,
    title: string,
    date: string,
    doctor: string,
    summary: string,
    status: string,
    annotations: int)

  /** The category id that shows every record. */
  const AllCategories := "all"

  /** The condition inside the `filteredRecords` filter. */
  predicate Matches(record: MedicalRecord, category: string, searchTerm: string)
  {
    var term := ToLower(searchTerm);
    && (category == AllCategories || record.recordType == category)
    && (Includes(ToLower(record.title), term) || Includes(ToLower(record.doctor), term))
  }

  /** `records.filter(...)`. */
  function FilterRecords(records: seq<MedicalRecord>, category: string, searchTerm: string): (r: seq<MedicalRecord>)
    ensures IsSubsequence(r, records)
    ensures |r| <= |records|
    ensures forall x :: x in r ==> x in records && Matches(x, category, searchTerm)
    ensures forall x :: x in records && Matches(x, category, searchTerm) ==> x in r
  {
    if |records| == 0 then []
    else
      var rest := FilterRecords(records[1..], category, searchTerm);
      if Matches(records[0], category, searchTerm) then
        assert ([records[0]] + rest)[1..] == rest;
        [records[0]] + rest
      else rest
  }

  /** The filter keeps every passing record as often as the list holds it,
      and no copy of any other. */
  lemma {:induction false} FilterRecordsCounts(records: seq<MedicalRecord>, category: string, searchTerm: string)
    ensures forall x :: multiset(FilterRecords(records, category, searchTerm))[x]
                        == if Matches(x, category, searchTerm) then multiset(records)[x] else 0
  {
    if |records| > 0 {
      var head := records[0];
      var rest := FilterRecords(records[1..], category, searchTerm);
      FilterRecordsCounts(records[1..], category, searchTerm);
      assert records == [head] + records[1..];
      assert multiset(records) == multiset{head} + multiset(records[1..]);
      if Matches(head, category, searchTerm) {
        assert multiset([head] + rest) == multiset{head} + multiset(rest);
      }
    }
  }

  /** Lower-casing the empty search term leaves it empty, and it occurs in
      every title: category 'all' with no search term shows every record. */
  lemma {:induction false} AllWithEmptySearchKeepsEverything(records: seq<MedicalRecord>)
    ensures FilterRecords(records, AllCategories, "") == records
  {
    if |records| > 0 {
      AllWithEmptySearchKeepsEverything(records[1..]);
      assert ToLower("") == "";
      IncludesEmpty(ToLower(records[0].title));
      assert [records[0]] + records[1..] == records;
    }
  }

  /** The records shown for one category are, in order, among those shown for
      'all' with the same search term. */
  lemma {:induction false} CategoryWithinAll(records: seq<MedicalRecord>, category: string, searchTerm: string)
    ensures IsSubsequence(FilterRecords(records, category, searchTerm), FilterRecords(records, AllCategories, searchTerm))
  {
    if |records| > 0 {
      var x := records[0];
      var some := FilterRecords(records, category, searchTerm);
      var all := FilterRecords(records, AllCategories, searchTerm);
      var someRest := FilterRecords(records[1..], category, searchTerm);
      var allRest := FilterRecords(records[1..], AllCategories, searchTerm);
      CategoryWithinAll(records[1..], category, searchTerm);
      if Matches(x, category, searchTerm) {
        assert Matches(x, AllCategories, searchTerm);
        assert some == [x] + someRest && all == [x] + allRest;
        assert some[1..] == someRest && all[1..] == allRest;
      } else if Matches(x, AllCategories, searchTerm) {
        assert some == someRest && all == [x] + allRest;
        assert all[1..] == allRest;
      } else {
        assert some == someRest && all == allRest;
      }
    }
  }

  // ---------------------------------------------------------------------------
  // Status badges
  // ---------------------------------------------------------------------------

  const NormalClass := "bg-green-100 text-green-700"
  const GoodClass := "bg-blue-100 text-blue-700"
  const ReviewClass := "bg-yellow-100 text-yellow-700"
  const DefaultClass := "bg-gray-100 text-gray-700"

  /** getStatusColor: defined for every status; the three known ones get their
      own distinct class, anything else the gray default. */
  function StatusColor(status: string): (cls: string)
    ensures cls == NormalClass <==> status == "Normal"
    ensures cls == GoodClass <==> status == "Good"
    ensures cls == ReviewClass <==> status == "Review"
    ensures cls == DefaultClass <==> status != "Normal" && status != "Good" && status != "Review"
  {
    match status
    case "Normal" => NormalClass
    case "Good" => GoodClass
    case "Review" => ReviewClass
    case _ => DefaultClass
  }
}
