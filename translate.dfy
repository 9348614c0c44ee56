/**
  The response translator's common steps: Python subscripting of the decoded
  body, calling an enumeration class on a decoded value, a comprehension or
  loop over a list that stops at the first exception, and the per-operation
  replacement of raw codes by enum members (`add_file`, `verify_access_key`,
  `get_url_files`, `get_url_info`).
*/
module Translate {
  import opened Wrappers
  import opened Vocabulary
  import opened PyValue
  import opened Dispatch

  /** `v[key]`: KeyError when a dict lacks the key, TypeError when v is not a dict. */
  function GetItem(v: Value, key: string): (r: Result<Value, Error>)
    ensures r.Ok? <==> v.DictV? && KStr(key) in ToMap(v.entries)
    ensures r.Ok? ==> r.value == ToMap(v.entries)[KStr(key)]
    ensures v.DictV? && r.Err? ==> r.error == KeyError(key)
    ensures !v.DictV? ==> r.error == TypeError
  {
    if !v.DictV? then Err(TypeError)
    else
      match Get(v.entries, KStr(key))
      case Some(x) => Ok(x)
      case None => Err(KeyError(key))
  }

  /** `v[key] = x` on a dict. */
  function SetItem(v: Value, key: string, x: Value): (r: Value)
    requires v.DictV?
    ensures r.DictV? && ToMap(r.entries) == ToMap(v.entries)[KStr(key) := x]
    ensures KStr(key) in KeysOf(v.entries) ==> KeysOf(r.entries) == KeysOf(v.entries)
    ensures KStr(key) !in KeysOf(v.entries) ==> KeysOf(r.entries) == KeysOf(v.entries) + [KStr(key)]
  {
    SetMap(v.entries, KStr(key), x);
    SetKeys(v.entries, KStr(key), x);
    DictV(Set(v.entries, KStr(key), x))
  }

  const NOT_A_VALID_MEMBER := "is not a valid member of the enumeration"

  /** Calling an enumeration class on a decoded value: `ImportStatus(v)` and so on. */
  function CallEnum(cls: EnumClass, v: Value): (r: Result<EnumMember, Error>)
    ensures r.Ok? <==> IntValue(v).Some? && Lookup(cls, IntValue(v).value).Some?
    ensures r.Ok? ==> r.value.Class() == cls && IntValue(v) == Some(r.value.Code())
    ensures r.Err? ==> r.error == ValueError(NOT_A_VALID_MEMBER)
  {
    match IntValue(v)
    case None => Err(ValueError(NOT_A_VALID_MEMBER))
    case Some(n) =>
      match Lookup(cls, n)
      case None => Err(ValueError(NOT_A_VALID_MEMBER))
      case Some(m) => Ok(m)
  }

  /**
    Applying f to every element in order, as a comprehension or a `for` loop
    does, stopping at the first element whose step raises.
  */
  function MapAll<A, B>(s: seq<A>, f: A -> Result<B, Error>): (r: Result<seq<B>, Error>)
    ensures r.Ok? <==> forall i :: 0 <= i < |s| ==> f(s[i]).Ok?
    ensures r.Ok? ==> |r.value| == |s| && forall i :: 0 <= i < |s| ==> r.value[i] == f(s[i]).value
    ensures r.Err? ==> exists i :: 0 <= i < |s| && f(s[i]) == Err(r.error) && forall j :: 0 <= j < i ==> f(s[j]).Ok?
  {
    if s == [] then Ok([])
    else
      var init := s[..|s| - 1];
      assert forall i :: 0 <= i < |init| ==> init[i] == s[i];
      var front :- MapAll(init, f);
      var last :- f(s[|s| - 1]);
      Ok(front + [last])
  }

  /** One more successful element: the loop step that MapAll's definition unfolds to. */
  lemma MapAllStep<A, B>(s: seq<A>, f: A -> Result<B, Error>, i: nat, done: seq<B>)
    requires i < |s| && MapAll(s[..i], f) == Ok(done) && f(s[i]).Ok?
    ensures MapAll(s[..i + 1], f) == Ok(done + [f(s[i]).value])
  {
    var t := s[..i + 1];
    MapAllSnoc(t, f);
    assert t[..|t| - 1] == s[..i];
  }

  /** MapAll of a non-empty sequence, unfolded once. */
  lemma MapAllSnoc<A, B>(t: seq<A>, f: A -> Result<B, Error>)
    requires t != []
    ensures MapAll(t, f) == (
      match MapAll(t[..|t| - 1], f)
      case Err(e) => Err(e)
      case Ok(front) => (match f(t[|t| - 1]) case Err(e) => Err(e) case Ok(last) => Ok(front + [last])))
  {
  }

  /** An exception at element i, after i successful elements, is the loop's exception. */
  lemma {:induction false} MapAllFirstError<A, B>(s: seq<A>, f: A -> Result<B, Error>, i: nat)
    requires i < |s| && f(s[i]).Err?
    requires MapAll(s[..i], f).Ok?
    ensures MapAll(s, f) == Err(f(s[i]).error)
  {
    assert forall j :: 0 <= j < i ==> s[..i][j] == s[j];
    var r := MapAll(s, f);
    assert r.Err?;
    var k :| 0 <= k < |s| && f(s[k]) == Err(r.error) && forall j :: 0 <= j < k ==> f(s[j]).Ok?;
    assert i <= k;
    assert k <= i;
  }

  /**
    `data[field] = Cls(data[field])`: the field's raw code replaced by the enum
    member with that code, every other entry of the dict and the order kept.
  */
  function EnumFieldDecoded(data: Value, field: string, cls: EnumClass): (r: Result<Value, Error>)
    ensures r.Ok? <==> GetItem(data, field).Ok? && CallEnum(cls, GetItem(data, field).value).Ok?
    ensures GetItem(data, field).Err? ==> r == Err(GetItem(data, field).error)
    ensures GetItem(data, field).Ok? && r.Err? ==> r.error == ValueError(NOT_A_VALID_MEMBER)
    ensures r.Ok? ==> r.value.DictV? && KeysOf(r.value.entries) == KeysOf(data.entries)
    ensures r.Ok? ==> exists m: EnumMember ::
      && m.Class() == cls
      && IntValue(ToMap(data.entries)[KStr(field)]) == Some(m.Code())
      && ToMap(r.value.entries) == ToMap(data.entries)[KStr(field) := MemberV(m)]
  {
    var raw :- GetItem(data, field);
    var m :- CallEnum(cls, raw);
    ToMapDomain(data.entries);
    SetMap(data.entries, KStr(field), MemberV(m));
    SetKeys(data.entries, KStr(field), MemberV(m));
    Ok(SetItem(data, field, MemberV(m)))
  }

  /** The elements `for x in v` visits; TypeError when v is not iterable. */
  function IterItems(v: Value): (r: Result<seq<Value>, Error>)
    ensures r.Ok? <==> Iterate(v).Some?
    ensures r.Ok? ==> r.value == Iterate(v).value
    ensures v.ListV? ==> r == Ok(v.items)
    ensures r.Err? ==> r.error == TypeError
  {
    if Iterate(v).Some? then Ok(Iterate(v).value) else Err(TypeError)
  }

  /** `[Permission(value) for value in v]`. */
  function PermissionValue(v: Value): Result<Value, Error> {
    var m :- CallEnum(PermissionClass, v);
    Ok(MemberV(m))
  }

  /** Each element decoded by `Permission(value)` is a Permission member with that element's code. */
  lemma PermissionsDecoded(items: seq<Value>, members: seq<Value>)
    requires MapAll(items, PermissionValue) == Ok(members)
    ensures |members| == |items|
    ensures forall i :: 0 <= i < |items| ==>
      && members[i].MemberV? && members[i].member.PermissionMember?
      && IntValue(items[i]) == Some(members[i].member.Code())
  {
    forall i | 0 <= i < |items|
      ensures members[i].MemberV? && members[i].member.PermissionMember?
      ensures IntValue(items[i]) == Some(members[i].member.Code())
    {
      assert members[i] == PermissionValue(items[i]).value;
      PermissionValueMeaning(items[i]);
    }
  }

  lemma PermissionValueMeaning(v: Value)
    requires PermissionValue(v).Ok?
    ensures PermissionValue(v).value.MemberV? && PermissionValue(v).value.member.PermissionMember?
    ensures IntValue(v) == Some(PermissionValue(v).value.member.Code())
  {
    var m := CallEnum(PermissionClass, v).value;
    assert m.Class() == PermissionClass;
  }

  /**
    `verify_access_key`'s translation: `basic_permissions` becomes the list of
    Permission members, one per element and in order.
  */
  function AccessKeyTranslated(data: Value): (r: Result<Value, Error>)
    ensures r.Ok? <==>
      && GetItem(data, "basic_permissions").Ok?
      && IterItems(GetItem(data, "basic_permissions").value).Ok?
      && var raw := IterItems(GetItem(data, "basic_permissions").value).value;
      && forall i :: 0 <= i < |raw| ==> CallEnum(PermissionClass, raw[i]).Ok?
    ensures GetItem(data, "basic_permissions").Err? ==> r == Err(GetItem(data, "basic_permissions").error)
    ensures GetItem(data, "basic_permissions").Ok? && IterItems(GetItem(data, "basic_permissions").value).Err? ==>
      r == Err(TypeError)
    ensures GetItem(data, "basic_permissions").Ok? && IterItems(GetItem(data, "basic_permissions").value).Ok? && r.Err? ==>
      r.error == ValueError(NOT_A_VALID_MEMBER)
    ensures r.Ok? ==> data.DictV? && r.value.DictV? && KeysOf(r.value.entries) == KeysOf(data.entries)
    ensures r.Ok? ==> KStr("basic_permissions") in ToMap(data.entries) && KStr("basic_permissions") in ToMap(r.value.entries)
    ensures r.Ok? ==>
      && var raw := IterItems(ToMap(data.entries)[KStr("basic_permissions")]).value;
      && var perms := ToMap(r.value.entries)[KStr("basic_permissions")];
      && ToMap(r.value.entries) == ToMap(data.entries)[KStr("basic_permissions") := perms]
      && perms.ListV? && |perms.items| == |raw|
      && forall i :: 0 <= i < |raw| ==>
        && perms.items[i].MemberV? && perms.items[i].member.PermissionMember?
        && IntValue(raw[i]) == Some(perms.items[i].member.Code())
  {
    var raw :- GetItem(data, "basic_permissions");
    var items :- IterItems(raw);
    var members := MapAll(items, PermissionValue);
    if members.Err? then Err(members.error)
    else
      PermissionsDecoded(items, members.value);
      ToMapDomain(data.entries);
      SetMap(data.entries, KStr("basic_permissions"), ListV(members.value));
      SetKeys(data.entries, KStr("basic_permissions"), ListV(members.value));
      Ok(SetItem(data, "basic_permissions", ListV(members.value)))
  }

  /** The body of `get_url_files`' loop for one entry. */
  function UrlFileStatusDecoded(entry: Value): Result<Value, Error> {
    EnumFieldDecoded(entry, "status", ImportStatusClass)
  }

  /**
    `get_url_files`' translation. Entries of a list are updated in place; any
    other iterable can only be empty here, since a string or a dict key cannot
    be subscripted with "status".
  */
  function UrlFilesTranslated(data: Value): (r: Result<Value, Error>)
    ensures r.Ok? <==>
      && GetItem(data, "url_file_statuses").Ok?
      && IterItems(GetItem(data, "url_file_statuses").value).Ok?
      && var entries := IterItems(GetItem(data, "url_file_statuses").value).value;
      && forall i :: 0 <= i < |entries| ==> UrlFileStatusDecoded(entries[i]).Ok?
    ensures GetItem(data, "url_file_statuses").Err? ==> r == Err(GetItem(data, "url_file_statuses").error)
    ensures GetItem(data, "url_file_statuses").Ok? && IterItems(GetItem(data, "url_file_statuses").value).Err? ==>
      r == Err(TypeError)
    ensures GetItem(data, "url_file_statuses").Ok? && IterItems(GetItem(data, "url_file_statuses").value).Ok? && r.Err? ==>
      r.error == MapAll(IterItems(GetItem(data, "url_file_statuses").value).value, UrlFileStatusDecoded).error
    ensures r.Ok? ==> data.DictV? && r.value.DictV? && KeysOf(r.value.entries) == KeysOf(data.entries)
    ensures r.Ok? ==> KStr("url_file_statuses") in ToMap(data.entries) && KStr("url_file_statuses") in ToMap(r.value.entries)
    ensures r.Ok? && ToMap(data.entries)[KStr("url_file_statuses")].ListV? ==>
      var before := ToMap(data.entries)[KStr("url_file_statuses")].items;
      && ToMap(r.value.entries)[KStr("url_file_statuses")].ListV?
      && var after := ToMap(r.value.entries)[KStr("url_file_statuses")].items;
      && |after| == |before|
      && forall i :: 0 <= i < |before| ==> Ok(after[i]) == UrlFileStatusDecoded(before[i])
    ensures r.Ok? ==>
      ToMap(r.value.entries) == ToMap(data.entries)[KStr("url_file_statuses") := ToMap(r.value.entries)[KStr("url_file_statuses")]]
    ensures r.Ok? && !ToMap(data.entries)[KStr("url_file_statuses")].ListV? ==> r.value == data
  {
    var statuses :- GetItem(data, "url_file_statuses");
    var items :- IterItems(statuses);
    var decoded :- MapAll(items, UrlFileStatusDecoded);
    ToMapDomain(data.entries);
    SetMap(data.entries, KStr("url_file_statuses"), ListV(decoded));
    SetKeys(data.entries, KStr("url_file_statuses"), ListV(decoded));
    Ok(if statuses.ListV? then SetItem(data, "url_file_statuses", ListV(decoded)) else data)
  }

  /** The loop of `get_url_files`, entry by entry. */
  method DecodeUrlFileStatuses(entries: seq<Value>) returns (r: Result<seq<Value>, Error>)
    ensures r == MapAll(entries, UrlFileStatusDecoded)
  {
    var done: seq<Value> := [];
    var i := 0;
    while i < |entries|
      invariant 0 <= i <= |entries|
      invariant MapAll(entries[..i], UrlFileStatusDecoded) == Ok(done)
    {
      var next := EnumFieldDecoded(entries[i], "status", ImportStatusClass);
      if next.Err? {
        MapAllFirstError(entries, UrlFileStatusDecoded, i);
        return Err(next.error);
      }
      MapAllStep(entries, UrlFileStatusDecoded, i, done);
      done := done + [next.value];
      i := i + 1;
    }
    assert entries[..i] == entries;
    r := Ok(done);
  }
}
