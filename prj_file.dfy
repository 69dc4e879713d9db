/**
 * PrjFile (prj_file.py): the project file base class that the .json format
 * extends. It holds the novel, the change callback handed to the elements it
 * creates, the daily word count log (date -> [count, count with unused]) and
 * the counts still missing from it, and the file's modification time.
 * count_words and adjust_section_types are the rules of ProjectRules.
 */
module PrjFiles {
  import opened Wrappers
  import opened Strings
  import opened OrderedMaps
  import opened ModelBases
  import opened Novels
  import opened JsonValues
  import opened ProjectRules

  /** _check_id: an element ID must start with its type's prefix. */
  function CheckId(id: string, prefix: string): (r: Result<()>)
    ensures r.Ok? <==> StartsWith(id, prefix)
    ensures r.Err? ==> r.error == "bad ID: '" + id + "'"
  {
    if StartsWith(id, prefix) then Ok(()) else Err("bad ID: '" + id + "'")
  }

  /** v[i] on a parsed JSON value: lists and strings can be indexed, nothing else. */
  function Item(v: Json, i: nat): (r: Result<Json>)
    ensures r.Ok? <==> (v.JList? && i < |v.items|) || (v.JStr? && i < |v.s|)
    ensures r.Ok? && v.JList? ==> r.value == v.items[i]
    ensures r.Ok? && v.JStr? ==> r.value == JStr([v.s[i]])
  {
    match v
    case JList(items) => if i < |items| then Ok(items[i]) else Err("list index out of range")
    case JStr(s) => if i < |s| then Ok(JStr([s[i]])) else Err("string index out of range")
    case _ => Err("object is not subscriptable")
  }

  /** Python's n == v for an int n: a number of the same value, or the bool that equals it. */
  predicate EqualsInt(n: int, v: Json)
  {
    v == JNum(n) || (v.JBool? && n == if v.b then 1 else 0)
  }

  /** A log entry [count, count with unused] as the .json format keeps it. */
  function CountEntry(count: int, totalCount: int): Json
  {
    JList([JNum(count), JNum(totalCount)])
  }

  /**
   * The log after the missing entries were copied into it, key by key in
   * their order: a date already logged keeps its place, a new one is appended.
   */
  function Merged<V>(log: OMap<string, V>, ks: seq<string>, m: map<string, V>): (r: OMap<string, V>)
    requires log.Valid() && forall k :: k in ks ==> k in m
    ensures r.Valid()
    ensures forall k :: k in r.m <==> k in log.m || k in ks
    ensures forall k :: k in ks ==> r.m[k] == m[k]
    ensures forall k :: k in log.m && k !in ks ==> r.m[k] == log.m[k]
    ensures |r.keys| >= |log.keys| && r.keys[..|log.keys|] == log.keys
  {
    if ks == [] then log
    else
      var k := ks[|ks| - 1];
      assert forall x :: x in ks <==> x in ks[..|ks| - 1] || x == k;
      var rest := Merged(log, ks[..|ks| - 1], m);
      var r := rest.Put(k, m[k]);
      assert r.keys[..|log.keys|] == rest.keys[..|log.keys|];
      r
  }

  /** Maps with the same keys and the same value at each key are equal. */
  lemma MapsEqual<V>(a: map<string, V>, b: map<string, V>)
    requires a.Keys == b.Keys && forall k :: k in a ==> a[k] == b[k]
    ensures a == b
  {
  }

  /** Copying every entry of upd into log is the map union where upd wins. */
  lemma MergedIsUnion<V>(log: OMap<string, V>, upd: OMap<string, V>)
    requires log.Valid() && upd.Valid()
    ensures Merged(log, upd.keys, upd.m).m == log.m + upd.m
  {
    MergedKeys(log, upd);
    MergedValues(log, upd);
    MapsEqual(Merged(log, upd.keys, upd.m).m, log.m + upd.m);
  }

  lemma MergedKeys<V>(log: OMap<string, V>, upd: OMap<string, V>)
    requires log.Valid() && upd.Valid()
    ensures Merged(log, upd.keys, upd.m).m.Keys == (log.m + upd.m).Keys
  {
  }

  lemma MergedValues<V>(log: OMap<string, V>, upd: OMap<string, V>)
    requires log.Valid() && upd.Valid()
    ensures forall k :: k in Merged(log, upd.keys, upd.m).m && k in log.m + upd.m ==>
      Merged(log, upd.keys, upd.m).m[k] == (log.m + upd.m)[k]
  {
  }

  class PrjFile {
    const novel: Novel
    var onElementChange: ModelBase?
    var wcLog: OMap<string, Json>
    var wcLogUpdate: OMap<string, Json>
    var timestamp: Option<int>

    ghost predicate Valid()
      reads this
    {
      wcLog.Valid() && wcLogUpdate.Valid()
    }

    constructor(novel: Novel)
      ensures Valid() && this.novel == novel && onElementChange == null
      ensures wcLog == Empty() && wcLogUpdate == Empty() && timestamp == None
    {
      this.novel := novel;
      onElementChange := null;
      wcLog := Empty();
      wcLogUpdate := Empty();
      timestamp := None;
    }

    /** _get_timestamp: the file's modification time, None when it cannot be read. */
    method GetTimestamp(mtime: Option<int>)
      modifies this`timestamp
      ensures timestamp == mtime
    {
      timestamp := mtime;
    }

    /**
     * _keep_word_count: when the last logged counts differ from the actual
     * ones, the actual counts are noted as missing under the file's date
     * (today's when the modification time gives none). An empty log notes
     * nothing; a last entry that cannot be indexed raises.
     */
    method KeepWordCount(fileDate: Option<string>, today: string) returns (r: Result<()>)
      requires Valid() && Countable(novel)
      modifies this`wcLogUpdate
      ensures Valid()
      ensures wcLog.keys == [] ==> r.Ok? && wcLogUpdate == old(wcLogUpdate)
      ensures wcLog.keys != [] ==>
        var last := wcLog.m[wcLog.keys[|wcLog.keys| - 1]];
        (r.Ok? <==> Item(last, 0).Ok? && Item(last, 1).Ok?)
        && (r.Err? ==> wcLogUpdate == old(wcLogUpdate))
        && (r.Ok? ==>
              var counts := old(ChapterWords(novel, ChapterIds(novel)));
              wcLogUpdate
              == if EqualsInt(counts.0, Item(last, 0).value) && EqualsInt(counts.1, Item(last, 1).value)
                 then old(wcLogUpdate)
                 else old(wcLogUpdate).Put(fileDate.GetOr(today), CountEntry(counts.0, counts.1)))
    {
      if wcLog.keys == [] {
        return Ok(());
      }
      var actualCount, actualTotalCount := ProjectRules.CountWords(novel);
      var latestDate := wcLog.keys[|wcLog.keys| - 1];
      var latestCount :- Item(wcLog.m[latestDate], 0);
      var latestTotalCount :- Item(wcLog.m[latestDate], 1);
      if !EqualsInt(actualCount, latestCount) || !EqualsInt(actualTotalCount, latestTotalCount) {
        wcLogUpdate := wcLogUpdate.Put(fileDate.GetOr(today), CountEntry(actualCount, actualTotalCount));
      }
      r := Ok(());
    }

    /**
     * _update_word_count_log: when the project saves word counts, today's
     * counts join the missing ones and all of them are copied into the log;
     * either way nothing is missing afterwards.
     */
    method UpdateWordCountLog(today: string)
      requires Valid() && Countable(novel)
      modifies this`wcLog, this`wcLogUpdate
      ensures Valid() && wcLogUpdate == Empty()
      ensures novel.saveWordCount == Some(true) ==>
        var counts := old(ChapterWords(novel, ChapterIds(novel)));
        var upd := old(wcLogUpdate).Put(today, CountEntry(counts.0, counts.1));
        wcLog == Merged(old(wcLog), upd.keys, upd.m)
      ensures novel.saveWordCount != Some(true) ==> wcLog == old(wcLog)
    {
      if novel.saveWordCount == Some(true) {
        var upd := WithTodaysCounts(today);
        wcLog := MergeLog(wcLog, upd);
      }
      wcLogUpdate := Empty();
    }

    /** The missing counts with today's counts added. */
    method WithTodaysCounts(today: string) returns (upd: OMap<string, Json>)
      requires Valid() && Countable(novel)
      ensures upd.Valid()
      ensures var counts := old(ChapterWords(novel, ChapterIds(novel)));
        upd == wcLogUpdate.Put(today, CountEntry(counts.0, counts.1))
    {
      var newCount, newTotalCount := ProjectRules.CountWords(novel);
      upd := wcLogUpdate.Put(today, CountEntry(newCount, newTotalCount));
    }
  }

  /** The copy loop of _update_word_count_log. */
  method MergeLog<V>(log: OMap<string, V>, upd: OMap<string, V>) returns (r: OMap<string, V>)
    requires log.Valid() && upd.Valid()
    ensures r == Merged(log, upd.keys, upd.m)
  {
    r := log;
    var i := 0;
    while i < |upd.keys|
      invariant 0 <= i <= |upd.keys|
      invariant r == Merged(log, upd.keys[..i], upd.m)
    {
      var wcDate := upd.keys[i];
      assert upd.keys[..i + 1][..i] == upd.keys[..i];
      r := r.Put(wcDate, upd.m[wcDate]);
      i := i + 1;
    }
    assert upd.keys[..i] == upd.keys;
  }
}
