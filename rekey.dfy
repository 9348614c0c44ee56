/**
  The re-keying `file_metadata` performs on every record it returns: within
  each tag service, the string status keys the service sends ("0", "1", ...)
  are replaced, one entry at a time and in place, by TagStatus members, and
  the tag lists are kept. Three nested loops: records, services, statuses.
*/
module Rekey {
  import opened Wrappers
  import opened Vocabulary
  import opened PyValue
  import opened Dispatch
  import opened Translate

  const SERVICES_KEY := "service_names_to_statuses_to_tags"
  const INVALID_LITERAL := "invalid literal for int() with base 10"
  const NOT_A_TAG_STATUS := "is not a valid TagStatus"

  /** `TagStatus(int(status))` for a key of a status-to-tags dict. */
  function KeyStatus(k: Key): (r: Result<TagStatus, Error>)
    ensures k.KStr? ==> (r.Ok? <==> ParseInt(k.s).Some? && 0 <= ParseInt(k.s).value <= 3)
    ensures k.KStr? && r.Ok? ==> ParseInt(k.s) == Some(r.value.Code())
    ensures k.KStr? && r.Err? ==> r.error.ValueError?
    ensures k.KStatus? ==> r == Ok(k.status)
  {
    match k
    case KStatus(t) => Ok(t)
    case KStr(s) =>
      match ParseInt(s)
      case None => Err(ValueError(INVALID_LITERAL))
      case Some(n) =>
        match TagStatusFromCode(n)
        case None => Err(ValueError(NOT_A_TAG_STATUS))
        case Some(t) => Ok(t)
  }

  /** The key under which the service writes status t: its code in decimal. */
  function StatusKey(t: TagStatus): Key {
    KStr(ShowInt(t.Code()))
  }

  /** A key the service wrote re-keys to the status it was written for. */
  lemma StatusKeyRoundTrip(t: TagStatus)
    ensures KeyStatus(StatusKey(t)) == Ok(t)
  {
    ParseShowInt(t.Code());
  }

  /** One iteration of the innermost loop: `d[TagStatus(int(k))] = v; del d[k]`. */
  function RekeyStep(d: Entries, e: (Key, Value)): Result<Entries, Error> {
    var t :- KeyStatus(e.0);
    Ok(Del(Set(d, KStatus(t), e.1), e.0))
  }

  /** The dict after the first n entries of its snapshot `list(d.items())` were processed. */
  function Rekeyed(d: Entries, n: nat): Result<Entries, Error>
    requires n <= |d|
  {
    if n == 0 then Ok(d)
    else
      var cur :- Rekeyed(d, n - 1);
      RekeyStep(cur, d[n - 1])
  }

  /** The whole innermost loop over one tag service's status-to-tags dict. */
  function StatusesRekeyed(d: Entries): Result<Entries, Error> {
    Rekeyed(d, |d|)
  }

  lemma {:induction false} RekeyedErrorStays(d: Entries, n: nat, m: nat)
    requires n <= m <= |d| && Rekeyed(d, n).Err?
    ensures Rekeyed(d, m) == Rekeyed(d, n)
  {
    if n < m {
      RekeyedErrorStays(d, n, m - 1);
    }
  }

  /** The loop as the source writes it, over a snapshot of the items. */
  method RekeyStatuses(d: Entries) returns (r: Result<Entries, Error>)
    ensures r == StatusesRekeyed(d)
  {
    var snapshot := d;
    var cur := d;
    var i := 0;
    while i < |snapshot|
      invariant 0 <= i <= |d| && snapshot == d
      invariant Rekeyed(d, i) == Ok(cur)
    {
      var (status, tags) := snapshot[i];
      var newStatus := KeyStatus(status);
      if newStatus.Err? {
        RekeyedErrorStays(d, i + 1, |d|);
        return Err(newStatus.error);
      }
      cur := Set(cur, KStatus(newStatus.value), tags);
      cur := Del(cur, status);
      i := i + 1;
    }
    r := Ok(cur);
  }

  // ---------------------------------------------------------------------------
  // What the innermost loop computes

  /** Every key of a dict decoded from JSON is a string. */
  predicate StringKeys(d: Entries) {
    forall i :: 0 <= i < |d| ==> d[i].0.KStr?
  }

  /** Every key names a TagStatus, i.e. no iteration raises. */
  predicate AllKeysParse(d: Entries) {
    forall i :: 0 <= i < |d| ==> KeyStatus(d[i].0).Ok?
  }

  /**
    The reference reading of the re-keying: each status maps to the tags of
    the last key (in dict order) that names it.
  */
  function ByStatus(d: Entries): map<Key, Value> {
    if d == [] then map[]
    else
      var last := d[|d| - 1];
      var before := ByStatus(d[..|d| - 1]);
      match KeyStatus(last.0)
      case Ok(t) => before[KStatus(t) := last.1]
      case Err(_) => before
  }

  lemma {:induction false} ByStatusKeys(d: Entries)
    ensures forall k :: k in ByStatus(d) ==> k.KStatus?
    ensures forall t :: KStatus(t) in ByStatus(d) <==> exists i :: 0 <= i < |d| && KeyStatus(d[i].0) == Ok(t)
  {
    if d != [] {
      var init := d[..|d| - 1];
      assert forall i :: 0 <= i < |init| ==> init[i] == d[i];
      ByStatusKeys(init);
      forall t | KStatus(t) in ByStatus(d)
        ensures exists i :: 0 <= i < |d| && KeyStatus(d[i].0) == Ok(t)
      {
        if KStatus(t) in ByStatus(init) {
          var i :| 0 <= i < |init| && KeyStatus(init[i].0) == Ok(t);
          assert KeyStatus(d[i].0) == Ok(t);
        } else {
          assert KeyStatus(d[|d| - 1].0) == Ok(t);
        }
      }
      forall t, i | 0 <= i < |d| && KeyStatus(d[i].0) == Ok(t)
        ensures KStatus(t) in ByStatus(d)
      {
        if i < |d| - 1 {
          assert KeyStatus(init[i].0) == Ok(t);
        }
      }
    }
  }

  /** A key whose status no later key names keeps its tags under that status. */
  lemma {:induction false} ByStatusKeepsTags(d: Entries, i: nat)
    requires i < |d| && KeyStatus(d[i].0).Ok?
    requires forall j :: i < j < |d| ==> KeyStatus(d[j].0) != KeyStatus(d[i].0)
    ensures KStatus(KeyStatus(d[i].0).value) in ByStatus(d)
    ensures ByStatus(d)[KStatus(KeyStatus(d[i].0).value)] == d[i].1
  {
    var init := d[..|d| - 1];
    assert forall j :: 0 <= j < |init| ==> init[j] == d[j];
    if i < |d| - 1 {
      ByStatusKeepsTags(init, i);
    }
  }

  lemma {:induction false} RekeyedOk(d: Entries, n: nat)
    requires n <= |d|
    ensures Rekeyed(d, n).Ok? <==> AllKeysParse(d[..n])
  {
    if n > 0 {
      RekeyedOk(d, n - 1);
      assert forall i :: 0 <= i < n - 1 ==> d[..n][i] == d[..n - 1][i];
    }
  }

  /** A failing prefix raises the ValueError of its first key that names no TagStatus. */
  lemma {:induction false} RekeyedFirstError(d: Entries, n: nat)
    requires n <= |d| && Rekeyed(d, n).Err?
    ensures exists i ::
      && 0 <= i < n
      && KeyStatus(d[i].0) == Err(Rekeyed(d, n).error)
      && forall j :: 0 <= j < i ==> KeyStatus(d[j].0).Ok?
  {
    var prev := Rekeyed(d, n - 1);
    if prev.Err? {
      RekeyedFirstError(d, n - 1);
    } else {
      RekeyedOk(d, n - 1);
      assert forall j :: 0 <= j < n - 1 ==> d[..n - 1][j] == d[j];
      assert KeyStatus(d[n - 1].0) == Err(Rekeyed(d, n).error);
    }
  }

  lemma {:induction false} RekeyedDistinct(d: Entries, n: nat)
    requires n <= |d| && DistinctKeys(d) && Rekeyed(d, n).Ok?
    ensures DistinctKeys(Rekeyed(d, n).value)
  {
    if n > 0 {
      RekeyedDistinct(d, n - 1);
      var cur := Rekeyed(d, n - 1).value;
      var t := KeyStatus(d[n - 1].0).value;
      SetKeepsDistinct(cur, KStatus(t), d[n - 1].1);
      DelKeepsDistinct(Set(cur, KStatus(t), d[n - 1].1), d[n - 1].0);
    }
  }

  /** The entries around position n. */
  lemma SplitAt(d: Entries, n: nat)
    requires n < |d|
    ensures d[n..] == [d[n]] + d[n + 1..]
    ensures d[..n + 1] == d[..n] + [d[n]]
  {
  }

  /** A later part of a JSON dict holds neither an earlier key nor any status key. */
  lemma SuffixKeys(d: Entries, n: nat)
    requires n < |d| && DistinctKeys(d) && StringKeys(d)
    ensures d[n].0 !in ToMap(d[n + 1..])
    ensures forall k :: k in ToMap(d[n + 1..]) ==> k.KStr?
  {
    var rest := d[n + 1..];
    ToMapDomain(rest);
    assert forall j :: 0 <= j < |rest| ==> KeysOf(rest)[j] == d[n + 1 + j].0;
  }

  /** One iteration in terms of maps: the entry moves from the unvisited part to the re-keyed part. */
  lemma StepAlgebra(
    before: map<Key, Value>, inserted: map<Key, Value>, after: map<Key, Value>,
    unvisited: map<Key, Value>, rest: map<Key, Value>, visited: map<Key, Value>, visitedNext: map<Key, Value>,
    k: Key, v: Value, s: Key)
    requires before == unvisited + visited && unvisited == rest[k := v]
    requires inserted == before[s := v] && after == inserted - {k}
    requires visitedNext == visited[s := v]
    requires k !in rest && s !in rest && k !in visited && k != s
    ensures after == rest + visitedNext
  {
  }

  /** The state of the loop after n iterations, in terms of the reference reading. */
  lemma {:induction false} RekeyedState(d: Entries, n: nat)
    requires n <= |d| && DistinctKeys(d) && StringKeys(d) && Rekeyed(d, n).Ok?
    ensures ToMap(Rekeyed(d, n).value) == ToMap(d[n..]) + ByStatus(d[..n])
  {
    if n == 0 {
      assert d[n..] == d;
    } else {
      var cur := Rekeyed(d, n - 1).value;
      var e := d[n - 1];
      var t := KeyStatus(e.0).value;
      assert Rekeyed(d, n) == Ok(Del(Set(cur, KStatus(t), e.1), e.0));
      RekeyedState(d, n - 1);
      SplitAt(d, n - 1);
      SuffixKeys(d, n - 1);
      RekeyedStateStep(cur, d[..n - 1], e, d[n..], t);
    }
  }

  /**
    One iteration, on entry e with the entries `rest` still to come: the loop's
    state keeps the form "unvisited entries plus the reference re-keying of the
    visited ones".
  */
  lemma RekeyedStateStep(cur: Entries, visited: Entries, e: (Key, Value), rest: Entries, t: TagStatus)
    requires e.0.KStr? && KeyStatus(e.0) == Ok(t)
    requires e.0 !in ToMap(rest) && forall k :: k in ToMap(rest) ==> k.KStr?
    requires ToMap(cur) == ToMap([e] + rest) + ByStatus(visited)
    ensures ToMap(Del(Set(cur, KStatus(t), e.1), e.0)) == ToMap(rest) + ByStatus(visited + [e])
  {
    var inserted := Set(cur, KStatus(t), e.1);
    SetMap(cur, KStatus(t), e.1);
    DelMap(inserted, e.0);
    assert ([e] + rest)[1..] == rest;
    ByStatusKeys(visited);
    var extended := visited + [e];
    assert extended[..|extended| - 1] == visited;
    StepAlgebra(ToMap(cur), ToMap(inserted), ToMap(Del(inserted, e.0)),
      ToMap([e] + rest), ToMap(rest), ByStatus(visited), ByStatus(extended), e.0, e.1, KStatus(t));
  }

  /**
    The innermost loop: it succeeds exactly when every key is the decimal code
    of a TagStatus, and then the dict maps each named status to the tags of
    the last key naming it, with no string key left.
  */
  lemma StatusesRekeyedMeaning(d: Entries)
    requires DistinctKeys(d) && StringKeys(d)
    ensures StatusesRekeyed(d).Ok? <==> AllKeysParse(d)
    ensures StatusesRekeyed(d).Err? ==>
      exists i :: 0 <= i < |d| && KeyStatus(d[i].0) == Err(StatusesRekeyed(d).error) &&
        forall j :: 0 <= j < i ==> KeyStatus(d[j].0).Ok?
    ensures StatusesRekeyed(d).Ok? ==>
      && ToMap(StatusesRekeyed(d).value) == ByStatus(d)
      && DistinctKeys(StatusesRekeyed(d).value)
      && forall k :: k in KeysOf(StatusesRekeyed(d).value) ==> k.KStatus?
  {
    assert d[..|d|] == d;
    RekeyedOk(d, |d|);
    if StatusesRekeyed(d).Err? {
      RekeyedFirstError(d, |d|);
    }
    if StatusesRekeyed(d).Ok? {
      RekeyedState(d, |d|);
      RekeyedDistinct(d, |d|);
      assert d[|d|..] == [];
      ByStatusKeys(d);
      ToMapDomain(StatusesRekeyed(d).value);
    }
  }

  /**
    With keys as the service writes them (the decimal codes, each at most
    once), every original key s with tags L ends up as TagStatus(int(s)) -> L.
  */
  lemma ServiceKeysRekeyed(d: Entries, i: nat)
    requires DistinctKeys(d) && i < |d|
    requires forall j :: 0 <= j < |d| ==> exists t: TagStatus :: d[j].0 == StatusKey(t)
    ensures StatusesRekeyed(d).Ok?
    ensures exists t: TagStatus ::
      && d[i].0 == StatusKey(t)
      && KStatus(t) in ToMap(StatusesRekeyed(d).value)
      && ToMap(StatusesRekeyed(d).value)[KStatus(t)] == d[i].1
  {
    forall j | 0 <= j < |d| ensures d[j].0.KStr? && KeyStatus(d[j].0).Ok? {
      var t: TagStatus :| d[j].0 == StatusKey(t);
      StatusKeyRoundTrip(t);
    }
    StatusesRekeyedMeaning(d);
    var t: TagStatus :| d[i].0 == StatusKey(t);
    StatusKeyRoundTrip(t);
    forall j | i < j < |d| ensures KeyStatus(d[j].0) != KeyStatus(d[i].0) {
      var u: TagStatus :| d[j].0 == StatusKey(u);
      StatusKeyRoundTrip(u);
    }
    ByStatusKeepsTags(d, i);
  }

  // ---------------------------------------------------------------------------
  // The two outer loops: tag services within a record, records within the response

  /**
    One iteration of the loop over `services_to_statuses.items()`: the
    service's dict re-keyed in place. AttributeError when it is not a dict.
  */
  function ServiceRekeyed(e: (Key, Value)): (r: Result<(Key, Value), Error>)
    ensures !e.1.DictV? ==> r == Err(AttributeError)
    ensures e.1.DictV? && StatusesRekeyed(e.1.entries).Err? ==> r == Err(StatusesRekeyed(e.1.entries).error)
    ensures r.Ok? ==> r.value == (e.0, DictV(StatusesRekeyed(e.1.entries).value))
  {
    if !e.1.DictV? then Err(AttributeError)
    else
      var statuses :- StatusesRekeyed(e.1.entries);
      Ok((e.0, DictV(statuses)))
  }

  method RekeyServices(services: Entries) returns (r: Result<Entries, Error>)
    ensures r == MapAll(services, ServiceRekeyed)
  {
    var done: Entries := [];
    var i := 0;
    while i < |services|
      invariant 0 <= i <= |services|
      invariant MapAll(services[..i], ServiceRekeyed) == Ok(done)
    {
      var (service, statusToTags) := services[i];
      if !statusToTags.DictV? {
        MapAllFirstError(services, ServiceRekeyed, i);
        return Err(AttributeError);
      }
      var statuses := RekeyStatuses(statusToTags.entries);
      if statuses.Err? {
        MapAllFirstError(services, ServiceRekeyed, i);
        return Err(statuses.error);
      }
      MapAllStep(services, ServiceRekeyed, i, done);
      done := done + [(service, DictV(statuses.value))];
      i := i + 1;
    }
    assert services[..i] == services;
    r := Ok(done);
  }

  /** One iteration of the loop over records. */
  function RecordRekeyed(datum: Value): (r: Result<Value, Error>)
    ensures GetItem(datum, SERVICES_KEY).Err? ==> r == Err(GetItem(datum, SERVICES_KEY).error)
    ensures GetItem(datum, SERVICES_KEY).Ok? && !GetItem(datum, SERVICES_KEY).value.DictV? ==> r == Err(AttributeError)
    ensures GetItem(datum, SERVICES_KEY).Ok? && GetItem(datum, SERVICES_KEY).value.DictV? ==>
      var m := MapAll(GetItem(datum, SERVICES_KEY).value.entries, ServiceRekeyed);
      (r.Ok? <==> m.Ok?) && (m.Err? ==> r == Err(m.error))
    ensures r.Ok? ==>
      var services := ToMap(datum.entries)[KStr(SERVICES_KEY)];
      && services.DictV? && MapAll(services.entries, ServiceRekeyed).Ok?
      && r.value.DictV?
      && ToMap(r.value.entries) == ToMap(datum.entries)[KStr(SERVICES_KEY) := DictV(MapAll(services.entries, ServiceRekeyed).value)]
  {
    var services :- GetItem(datum, SERVICES_KEY);
    if !services.DictV? then Err(AttributeError)
    else
      var rekeyed :- MapAll(services.entries, ServiceRekeyed);
      Ok(SetItem(datum, SERVICES_KEY, DictV(rekeyed)))
  }

  method RekeyRecords(records: seq<Value>) returns (r: Result<seq<Value>, Error>)
    ensures r == MapAll(records, RecordRekeyed)
  {
    var done: seq<Value> := [];
    var i := 0;
    while i < |records|
      invariant 0 <= i <= |records|
      invariant MapAll(records[..i], RecordRekeyed) == Ok(done)
    {
      var datum := records[i];
      var servicesToStatuses := GetItem(datum, SERVICES_KEY);
      if servicesToStatuses.Err? {
        MapAllFirstError(records, RecordRekeyed, i);
        return Err(servicesToStatuses.error);
      }
      if !servicesToStatuses.value.DictV? {
        MapAllFirstError(records, RecordRekeyed, i);
        return Err(AttributeError);
      }
      var services := RekeyServices(servicesToStatuses.value.entries);
      if services.Err? {
        MapAllFirstError(records, RecordRekeyed, i);
        return Err(services.error);
      }
      MapAllStep(records, RecordRekeyed, i, done);
      done := done + [SetItem(datum, SERVICES_KEY, DictV(services.value))];
      i := i + 1;
    }
    assert records[..i] == records;
    r := Ok(done);
  }

  /**
    `file_metadata`'s translation of a successful body: the `metadata` list,
    returned as is in identifiers-only mode and re-keyed otherwise.
  */
  function MetadataTranslated(body: Value, onlyIdentifiers: bool): (r: Result<Value, Error>)
    ensures GetItem(body, "metadata").Err? ==> r == Err(GetItem(body, "metadata").error)
    ensures onlyIdentifiers ==> r == GetItem(body, "metadata")
    ensures !onlyIdentifiers && GetItem(body, "metadata").Ok? && GetItem(body, "metadata").value.ListV? ==>
      var items := GetItem(body, "metadata").value.items;
      && (r.Ok? <==> forall i :: 0 <= i < |items| ==> RecordRekeyed(items[i]).Ok?)
      && (r.Ok? ==> r.value.ListV? && |r.value.items| == |items|)
      && (r.Ok? ==> forall i :: 0 <= i < |items| ==> RecordRekeyed(items[i]) == Ok(r.value.items[i]))
      && (r.Err? ==> r.error == MapAll(items, RecordRekeyed).error)
    ensures !onlyIdentifiers && GetItem(body, "metadata").Ok? ==>
      var data := GetItem(body, "metadata").value;
      && (IterItems(data).Err? ==> r == Err(TypeError))
      && (IterItems(data).Ok? ==> (r.Ok? <==> MapAll(IterItems(data).value, RecordRekeyed).Ok?))
      && (IterItems(data).Ok? && r.Err? ==> r.error == MapAll(IterItems(data).value, RecordRekeyed).error)
    ensures !onlyIdentifiers && GetItem(body, "metadata").Ok? && !GetItem(body, "metadata").value.ListV? && r.Ok? ==>
      r.value == GetItem(body, "metadata").value
  {
    var data :- GetItem(body, "metadata");
    if onlyIdentifiers then Ok(data)
    else
      var records :- IterItems(data);
      var rekeyed :- MapAll(records, RecordRekeyed);
      Ok(if data.ListV? then ListV(rekeyed) else data)
  }

  /** A dict as JSON decoding produces it: string keys, each once. */
  predicate JsonDict(d: Entries) {
    DistinctKeys(d) && StringKeys(d)
  }

  /**
    Re-keying one record: it succeeds exactly when the record has a dict of
    services, each service's value is a dict and every status key names a
    TagStatus. Then the record keeps its keys, the service names are
    unchanged and in order, and each service's dict holds, under TagStatus
    keys only, the reference reading of its original dict.
  */
  lemma RecordRekeyedMeaning(datum: Value)
    requires datum.DictV? && KStr(SERVICES_KEY) in ToMap(datum.entries)
    requires var services := ToMap(datum.entries)[KStr(SERVICES_KEY)];
      services.DictV? ==> forall i :: 0 <= i < |services.entries| && services.entries[i].1.DictV? ==>
        JsonDict(services.entries[i].1.entries)
    ensures var services := ToMap(datum.entries)[KStr(SERVICES_KEY)];
      RecordRekeyed(datum).Ok? <==>
        services.DictV? &&
        forall i :: 0 <= i < |services.entries| ==>
          services.entries[i].1.DictV? && AllKeysParse(services.entries[i].1.entries)
    ensures RecordRekeyed(datum).Ok? ==>
      var before := ToMap(datum.entries)[KStr(SERVICES_KEY)].entries;
      var out := RecordRekeyed(datum).value;
      && out.DictV? && KeysOf(out.entries) == KeysOf(datum.entries)
      && KStr(SERVICES_KEY) in ToMap(out.entries)
      && var after := ToMap(out.entries)[KStr(SERVICES_KEY)];
      && ToMap(out.entries) == ToMap(datum.entries)[KStr(SERVICES_KEY) := after]
      && after.DictV? && KeysOf(after.entries) == KeysOf(before)
      && forall i :: 0 <= i < |before| ==>
          && after.entries[i].1.DictV?
          && ToMap(after.entries[i].1.entries) == ByStatus(before[i].1.entries)
          && forall k :: k in KeysOf(after.entries[i].1.entries) ==> k.KStatus?
  {
    var services := ToMap(datum.entries)[KStr(SERVICES_KEY)];
    if services.DictV? {
      var before := services.entries;
      forall i | 0 <= i < |before| && before[i].1.DictV?
        ensures StatusesRekeyed(before[i].1.entries).Ok? <==> AllKeysParse(before[i].1.entries)
        ensures StatusesRekeyed(before[i].1.entries).Ok? ==>
          && ToMap(StatusesRekeyed(before[i].1.entries).value) == ByStatus(before[i].1.entries)
          && forall k :: k in KeysOf(StatusesRekeyed(before[i].1.entries).value) ==> k.KStatus?
      {
        StatusesRekeyedMeaning(before[i].1.entries);
      }
      var rekeyed := MapAll(before, ServiceRekeyed);
      if rekeyed.Ok? {
        var after := rekeyed.value;
        assert KeysOf(after) == KeysOf(before);
        ToMapDomain(datum.entries);
        SetMap(datum.entries, KStr(SERVICES_KEY), DictV(after));
        SetKeys(datum.entries, KStr(SERVICES_KEY), DictV(after));
      }
    }
  }

  /** A reply with one record whose service holds one current tag: the tag ends up under TagStatus.Current. */
  lemma MetadataExample()
    ensures
      var tags := DictV([(KStr("my tags"), DictV([(KStr("0"), ListV([StrV("a")]))]))]);
      var record := DictV([(KStr(SERVICES_KEY), tags)]);
      var rekeyedTags := DictV([(KStr("my tags"), DictV([(KStatus(Current), ListV([StrV("a")]))]))]);
      MetadataTranslated(DictV([(KStr("metadata"), ListV([record]))]), false)
        == Ok(ListV([DictV([(KStr(SERVICES_KEY), rekeyedTags)])]))
  {
    var statuses: Entries := [(KStr("0"), ListV([StrV("a")]))];
    var rekeyedStatuses: Entries := [(KStatus(Current), ListV([StrV("a")]))];
    assert ParseInt("0") == Some(0);
    assert KeyStatus(KStr("0")) == Ok(Current);
    assert Set(statuses, KStatus(Current), ListV([StrV("a")])) == statuses + rekeyedStatuses;
    assert Del(statuses + rekeyedStatuses, KStr("0")) == rekeyedStatuses;
    assert StatusesRekeyed(statuses) == Ok(rekeyedStatuses);
    var services: Entries := [(KStr("my tags"), DictV(statuses))];
    var rekeyedServices: Entries := [(KStr("my tags"), DictV(rekeyedStatuses))];
    assert ServiceRekeyed(services[0]) == Ok(rekeyedServices[0]);
    var servicesDone := MapAll(services, ServiceRekeyed);
    assert servicesDone.Ok? && |servicesDone.value| == 1 && servicesDone.value[0] == rekeyedServices[0];
    assert servicesDone.value == rekeyedServices;
    var record := DictV([(KStr(SERVICES_KEY), DictV(services))]);
    var rekeyedRecord := DictV([(KStr(SERVICES_KEY), DictV(rekeyedServices))]);
    assert GetItem(record, SERVICES_KEY) == Ok(DictV(services));
    assert Set(record.entries, KStr(SERVICES_KEY), DictV(rekeyedServices)) == rekeyedRecord.entries;
    assert RecordRekeyed(record) == Ok(rekeyedRecord);
    var recordsDone := MapAll([record], RecordRekeyed);
    assert recordsDone.Ok? && |recordsDone.value| == 1 && recordsDone.value[0] == rekeyedRecord;
    assert recordsDone.value == [rekeyedRecord];
  }
}
