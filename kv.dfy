/** The key/value mirror of a routing intent: one key per field under
    docker-flow/<service>/, written by Execute and read back by the fleet
    replay. */
module Kv {
  import opened Strings
  import opened Failures
  import opened Template

  const ColorKey := "color"
  const PathKey := "path"
  const DomainKey := "domain"
  const PathTypeKey := "pathtype"
  const SkipCheckKey := "skipcheck"
  const ConsulTemplatePathKey := "consultemplatepath"

  /** The fields of a record, in the order Execute writes them. */
  const Fields: seq<string> := [ColorKey, PathKey, DomainKey, PathTypeKey, SkipCheckKey, ConsulTemplatePathKey]

  /** The key of one field of one service. */
  function Key(name: string, field: string): string {
    "docker-flow/" + name + "/" + field
  }

  /** fmt.Sprintf("%t", b). */
  function FormatBool(b: bool): string {
    if b then "true" else "false"
  }

  /** strconv.ParseBool with its error ignored: the accepted spellings of
      true give true, everything else (false spellings and garbage) false. */
  function ParseBool(s: string): bool {
    s in {"1", "t", "T", "TRUE", "true", "True"}
  }

  lemma ParseFormatBool(b: bool)
    ensures ParseBool(FormatBool(b)) == b
  {
  }

  /** The values Execute writes, field by field: the path list comma-joined,
      the skip-check flag as "true"/"false". */
  function Record(sr: ServiceReconfigure): (r: seq<(string, string)>)
    ensures |r| == |Fields| && forall i :: 0 <= i < |r| ==> r[i].0 == Fields[i]
  {
    [ (ColorKey, sr.serviceColor),
      (PathKey, Join(sr.servicePath, ',')),
      (DomainKey, sr.serviceDomain),
      (PathTypeKey, sr.pathType),
      (SkipCheckKey, FormatBool(sr.skipCheck)),
      (ConsulTemplatePathKey, sr.consulTemplatePath) ]
  }

  /** The store after writing the pairs of `rec`, in order, for service `name`. */
  function Stored(kv: map<string, string>, name: string, rec: seq<(string, string)>): map<string, string> {
    if rec == [] then kv
    else Stored(kv, name, rec[..|rec| - 1])[Key(name, rec[|rec| - 1].0) := rec[|rec| - 1].1]
  }

  /** A raw GET of a key: its value, or "" when the key is absent (404). */
  function Lookup(kv: map<string, string>, key: string): string {
    if key in kv then kv[key] else ""
  }

  /** The service has a routing record: a non-empty path list or a custom
      template (an absent key and an empty value read alike). */
  predicate HasData(kv: map<string, string>, name: string) {
    Lookup(kv, Key(name, PathKey)) != "" || Lookup(kv, Key(name, ConsulTemplatePathKey)) != ""
  }

  /** The intent the replay reconstructs from the store; None for a service
      without routing data. Absent fields read as unset. */
  function Rebuild(kv: map<string, string>, name: string): (r: Option<ServiceReconfigure>)
    ensures r.Some? <==> HasData(kv, name)
    ensures r.Some? ==> r.value.serviceName == name
    ensures r.Some? ==> (r.value.servicePath == [] <==> Lookup(kv, Key(name, PathKey)) == "")
  {
    if !HasData(kv, name) then None
    else
      var path := Lookup(kv, Key(name, PathKey));
      Some(ServiceReconfigure(
        name,
        Lookup(kv, Key(name, ColorKey)),
        if path != "" then Split(path, ',') else [],
        Lookup(kv, Key(name, DomainKey)),
        Lookup(kv, Key(name, ConsulTemplatePathKey)),
        Lookup(kv, Key(name, PathTypeKey)),
        ParseBool(Lookup(kv, Key(name, SkipCheckKey)))))
  }

  // ---------------------------------------------------------------------------
  // Keys of different fields or services never collide
  // ---------------------------------------------------------------------------

  /** In a + "/" + f with a slash-free f, the slash after a is the last one. */
  lemma LastSlash(a: string, f: string)
    requires '/' !in f
    ensures var s := a + "/" + f;
            s[|a|] == '/' && forall i :: |a| < i < |s| ==> s[i] != '/'
  {
    var s := a + "/" + f;
    forall i | |a| < i < |s| ensures s[i] != '/' {
      assert s[i] == f[i - |a| - 1];
    }
  }

  /** Two strings ending in "/<field>" with slash-free fields agree exactly
      when both the part before and the field agree. */
  lemma SlashSuffix(a: string, f: string, b: string, g: string)
    requires '/' !in f && '/' !in g
    requires a + "/" + f == b + "/" + g
    ensures a == b && f == g
  {
    var s := a + "/" + f;
    LastSlash(a, f);
    LastSlash(b, g);
    assert |a| == |b|;
    assert a == s[..|a|];
    assert f == s[|a| + 1..];
  }

  lemma KeyInjective(n1: string, f1: string, n2: string, f2: string)
    requires '/' !in f1 && '/' !in f2
    ensures Key(n1, f1) == Key(n2, f2) <==> n1 == n2 && f1 == f2
  {
    if Key(n1, f1) == Key(n2, f2) {
      assert "docker-flow/" + n1 + "/" + f1 == ("docker-flow/" + n1) + "/" + f1;
      SlashSuffix("docker-flow/" + n1, f1, "docker-flow/" + n2, f2);
      assert n1 == ("docker-flow/" + n1)[12..];
      assert n2 == ("docker-flow/" + n2)[12..];
    }
  }

  lemma FieldsAreDistinctAndSlashFree()
    ensures forall i, j :: 0 <= i < j < |Fields| ==> Fields[i] != Fields[j]
    ensures forall i :: 0 <= i < |Fields| ==> '/' !in Fields[i]
  {
  }

  // ---------------------------------------------------------------------------
  // What writing a record does to the store
  // ---------------------------------------------------------------------------

  /** After the writes, the key of a written field holds the value written
      last for it; here every field is written once. */
  lemma {:induction false} StoredGet(kv: map<string, string>, name: string, rec: seq<(string, string)>, i: nat)
    requires i < |rec|
    requires forall j :: 0 <= j < |rec| ==> '/' !in rec[j].0
    requires forall j, k :: 0 <= j < k < |rec| ==> rec[j].0 != rec[k].0
    ensures Key(name, rec[i].0) in Stored(kv, name, rec)
    ensures Stored(kv, name, rec)[Key(name, rec[i].0)] == rec[i].1
    decreases |rec|
  {
    var last := |rec| - 1;
    if i < last {
      KeyInjective(name, rec[i].0, name, rec[last].0);
      StoredGet(kv, name, rec[..last], i);
    }
  }

  /** A key that is not one of the written keys keeps its old state. */
  lemma {:induction false} StoredElsewhere(kv: map<string, string>, name: string, rec: seq<(string, string)>, key: string)
    requires forall j :: 0 <= j < |rec| ==> key != Key(name, rec[j].0)
    ensures key in Stored(kv, name, rec) <==> key in kv
    ensures key in kv ==> Stored(kv, name, rec)[key] == kv[key]
    decreases |rec|
  {
    if rec != [] {
      StoredElsewhere(kv, name, rec[..|rec| - 1], key);
    }
  }

  /** Writing a record touches only keys of that service: every key of
      another service, and every key outside the record's fields, is as
      before. */
  lemma StoreTouchesOnlyOwnKeys(kv: map<string, string>, sr: ServiceReconfigure, other: string, field: string)
    requires '/' !in field
    requires other != sr.serviceName || field !in Fields
    ensures Key(other, field) in Stored(kv, sr.serviceName, Record(sr)) <==> Key(other, field) in kv
    ensures Key(other, field) in kv ==>
              Stored(kv, sr.serviceName, Record(sr))[Key(other, field)] == kv[Key(other, field)]
  {
    var rec := Record(sr);
    forall j | 0 <= j < |rec| ensures Key(other, field) != Key(sr.serviceName, rec[j].0) {
      KeyInjective(other, field, sr.serviceName, rec[j].0);
    }
    StoredElsewhere(kv, sr.serviceName, rec, Key(other, field));
  }

  /** Every field of a written record reads back as written. */
  lemma StoredRecordReadsBack(kv: map<string, string>, sr: ServiceReconfigure)
    ensures var s, n := Stored(kv, sr.serviceName, Record(sr)), sr.serviceName;
            && Lookup(s, Key(n, ColorKey)) == sr.serviceColor
            && Key(n, PathKey) in s && s[Key(n, PathKey)] == Join(sr.servicePath, ',')
            && Lookup(s, Key(n, DomainKey)) == sr.serviceDomain
            && Lookup(s, Key(n, PathTypeKey)) == sr.pathType
            && Lookup(s, Key(n, SkipCheckKey)) == FormatBool(sr.skipCheck)
            && Lookup(s, Key(n, ConsulTemplatePathKey)) == sr.consulTemplatePath
  {
    var rec := Record(sr);
    FieldsAreDistinctAndSlashFree();
    StoredGet(kv, sr.serviceName, rec, 0);
    StoredGet(kv, sr.serviceName, rec, 1);
    StoredGet(kv, sr.serviceName, rec, 2);
    StoredGet(kv, sr.serviceName, rec, 3);
    StoredGet(kv, sr.serviceName, rec, 4);
    StoredGet(kv, sr.serviceName, rec, 5);
  }

  // ---------------------------------------------------------------------------
  // Round trip: what Execute stores, the replay rebuilds
  // ---------------------------------------------------------------------------

  /** An intent the control server accepts (a non-empty path list or a
      custom template) whose paths hold no comma comes back from the store
      exactly as it was written: strings.Split undoes strings.Join. */
  lemma RebuildStored(kv: map<string, string>, sr: ServiceReconfigure)
    requires NoSep(sr.servicePath, ',')
    requires Join(sr.servicePath, ',') != "" || (sr.servicePath == [] && sr.consulTemplatePath != "")
    ensures Rebuild(Stored(kv, sr.serviceName, Record(sr)), sr.serviceName) == Some(sr)
  {
    StoredRecordReadsBack(kv, sr);
    if sr.servicePath != [] {
      SplitJoin(sr.servicePath, ',');
    }
    ParseFormatBool(sr.skipCheck);
  }

  /** A path list whose comma-joined form is empty ([""]) is not replayed
      as such: with a custom template the replayed intent has no paths, and
      without one the service reads as having no data. */
  lemma RebuildStoredEmptyPath(kv: map<string, string>, sr: ServiceReconfigure)
    requires sr.servicePath == [""]
    ensures var r := Rebuild(Stored(kv, sr.serviceName, Record(sr)), sr.serviceName);
            && (sr.consulTemplatePath == "" ==> r == None)
            && (sr.consulTemplatePath != "" ==> r == Some(sr.(servicePath := [])))
  {
    StoredRecordReadsBack(kv, sr);
    ParseFormatBool(sr.skipCheck);
  }
}
