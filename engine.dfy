/** The reconfiguration engine. Execute applies one routing intent: render
    its template, write it, run consul-template, have the proxy rebuild its
    configuration and reload, then record the intent in the key/value store.
    ReloadAllServices replays the whole fleet from that store. The outside
    world (file system, consul-template, the proxy, the key/value store) is
    an Env: a log of the calls made to it, the store's contents, and a fixed
    record of which calls fail. */
module Engine {
  import opened Strings
  import opened Failures
  import opened Template
  import opened Kv

  /** The fixed name of the template file both flows write. */
  const ServiceTemplateFilename := "service-formatted.ctmpl"

  /** The file mode of the written template, 0664 in octal. */
  const TemplatePerm := 6 * 64 + 6 * 8 + 4

  /** What the aggregate template puts after each service's block. */
  const FleetSeparator := "\n\n"

  const CatalogPath := "/v1/catalog/services"

  datatype BaseReconfigure = BaseReconfigure(consulAddress: string, templatesPath: string, configsPath: string)

  /** The engine scoped to one routing intent. */
  datatype Reconfigure = Reconfigure(base: BaseReconfigure, service: ServiceReconfigure)
  {
    /** The two values the engine was built from: they determine it. */
    function GetData(): (r: (BaseReconfigure, ServiceReconfigure))
      ensures Reconfigure(r.0, r.1) == this
    {
      (base, service)
    }

    /** Write the template text, run consul-template, rebuild the proxy
        configuration and reload it, stopping at the first failure. */
    method Apply(address: string, text: string, env: Env) returns (err: Option<Error>)
      modifies env
      ensures var o := ApplySpec(this, address, text, env.caps, old(env.kv));
              err == o.error && env.log == old(env.log) + o.effects && env.kv == old(env.kv)
    {
      var path := TemplateFile(base.templatesPath);
      var ok := env.WriteTemplate(path, text, TemplatePerm);
      if !ok {
        return Some(FileWriteError(path));
      }
      ok := env.RunCommand(ConsulTemplateArgs(address, base.templatesPath, service.serviceName));
      if !ok {
        return Some(ConsulTemplateError);
      }
      ok := env.CreateConfigs(base.templatesPath, base.configsPath);
      if !ok {
        return Some(ProxyRebuildError);
      }
      ok := env.ReloadProxy();
      if !ok {
        return Some(ProxyReloadError);
      }
      return None;
    }

    /** Apply this intent and, once the proxy has reloaded, record it in the
        key/value store. */
    method Execute(env: Env) returns (err: Option<Error>)
      modifies env
      ensures var o := ExecuteSpec(this, env.caps, old(env.kv));
              err == o.error && env.log == old(env.log) + o.effects && env.kv == o.kv
    {
      var rendered := GetConsulTemplate(env.caps.files, service);
      if rendered.Err? {
        return Some(rendered.error);
      }
      err := Apply(base.consulAddress, rendered.value, env);
      if err.Some? {
        return;
      }
      err := PutRecord(env, WithScheme(base.consulAddress), service.serviceName, Record(service));
    }

    /** Rebuild every catalogued service's intent from the store, render them
        into one aggregate template and apply it once. */
    method ReloadAllServices(address: string, env: Env) returns (err: Option<Error>)
      modifies env
      ensures var o := ReplaySpec(this, address, env.caps, old(env.kv));
              err == o.error && env.log == old(env.log) + o.effects && env.kv == old(env.kv)
    {
      var baseUrl := WithScheme(address);
      var catalog := env.GetCatalog(baseUrl);
      if catalog.Err? {
        return Some(catalog.error);
      }
      var rendered := RenderFleet(env.caps.files, env.kv, catalog.value);
      if rendered.Err? {
        return Some(rendered.error);
      }
      err := Apply(address, rendered.value, env);
    }
  }

  /** The engine for one intent: its data is exactly what it was built from. */
  function NewReconfigure(base: BaseReconfigure, service: ServiceReconfigure): (r: Reconfigure)
    ensures r.GetData() == (base, service)
  {
    Reconfigure(base, service)
  }

  /** Every NewReconfigure builds a new engine: engines built from different
      base or service values hand back different data. */
  lemma NewReconfigureDistinct(b1: BaseReconfigure, s1: ServiceReconfigure, b2: BaseReconfigure, s2: ServiceReconfigure)
    ensures NewReconfigure(b1, s1).GetData().0 == NewReconfigure(b2, s2).GetData().0 <==> b1 == b2
    ensures NewReconfigure(b1, s1).GetData().1 == NewReconfigure(b2, s2).GetData().1 <==> s1 == s2
  {
  }

  // ---------------------------------------------------------------------------
  // Addresses and the consul-template command line
  // ---------------------------------------------------------------------------

  const HttpScheme := "http://"
  const HttpsScheme := "https://"

  /** The address starts with http:// or https://, in any letter case. */
  predicate HasScheme(address: string) {
    || (|address| >= |HttpScheme| && EqualFold(address[..|HttpScheme|], HttpScheme))
    || (|address| >= |HttpsScheme| && EqualFold(address[..|HttpsScheme|], HttpsScheme))
  }

  /** The address as a URL: http:// is put in front of a bare host. The
      result always has a scheme, an address with one is kept as it is, and
      the host consul-template is given does not change. */
  function WithScheme(address: string): (r: string)
    ensures HasScheme(r)
    ensures HasScheme(address) ==> r == address
    ensures StripScheme(r) == StripScheme(address)
  {
    if HasScheme(address) then address
    else
      assert (HttpScheme + address)[..|HttpScheme|] == HttpScheme;
      RemoveFoldPrefix(HttpScheme, address, HttpScheme);
      HttpScheme + address
  }

  /** The host:port handed to consul-template: every http:// and https://
      removed, in any letter case; it is never longer than the address. */
  function StripScheme(address: string): (r: string)
    ensures |r| <= |address|
  {
    RemoveFoldShorter(address, HttpScheme);
    RemoveFoldShorter(RemoveFold(address, HttpScheme), HttpsScheme);
    RemoveFold(RemoveFold(address, HttpScheme), HttpsScheme)
  }

  function TemplateFile(templatesPath: string): string {
    templatesPath + "/" + ServiceTemplateFilename
  }

  function ConsulTemplateArgs(address: string, templatesPath: string, serviceName: string): seq<string> {
    [ "consul-template",
      "-consul", StripScheme(address),
      "-template", TemplateFile(templatesPath) + ":" + templatesPath + "/" + serviceName + ".cfg",
      "-once" ]
  }

  /** Adding the scheme is idempotent. */
  lemma WithSchemeIdempotent(address: string)
    ensures WithScheme(WithScheme(address)) == WithScheme(address)
  {
  }

  /** A leading http:// in any letter case is dropped from the host. */
  lemma StripSchemePrefix(prefix: string, host: string)
    requires EqualFold(prefix, HttpScheme)
    ensures StripScheme(prefix + host) == StripScheme(host)
  {
    RemoveFoldPrefix(prefix, host, HttpScheme);
  }

  /** A host that holds no scheme is handed over unchanged. */
  lemma StripSchemeOfHost(host: string)
    requires forall i :: !FoldsAt(host, HttpScheme, i)
    requires forall i :: !FoldsAt(host, HttpsScheme, i)
    ensures StripScheme(host) == host
  {
    RemoveFoldFree(host, HttpScheme);
    RemoveFoldFree(host, HttpsScheme);
  }

  /** consul-template gets the bare host whatever the case of the scheme
      the address was configured with ("HttP://host" as well as "host"). */
  lemma ConsulTemplateArgsTrimScheme(prefix: string, host: string, templatesPath: string, name: string)
    requires EqualFold(prefix, HttpScheme)
    requires forall i :: !FoldsAt(host, HttpScheme, i)
    requires forall i :: !FoldsAt(host, HttpsScheme, i)
    ensures ConsulTemplateArgs(prefix + host, templatesPath, name)[2] == host
    ensures ConsulTemplateArgs(prefix + host, templatesPath, name)
         == ConsulTemplateArgs(host, templatesPath, name)
  {
    StripSchemePrefix(prefix, host);
    StripSchemeOfHost(host);
  }

  // ---------------------------------------------------------------------------
  // The outside world
  // ---------------------------------------------------------------------------

  /** Which calls to the outside world fail, and what it holds. */
  datatype Capabilities = Capabilities(
    files: map<string, string>,    // readable custom template files and their contents
    writeFails: bool,              // writing the template file fails
    consulTemplateFails: bool,     // consul-template exits with an error
    createConfigFails: bool,       // proxy.CreateConfigFromTemplates fails
    reloadFails: bool,             // proxy.Reload fails
    kvHosts: set<string>,          // host:port values at which the store answers
    refusedFields: set<string>,    // record fields whose PUT the store refuses
    catalog: seq<string>,          // the service catalog, in the order it is walked
    runFails: bool,                // the server's startup Run step fails
    removeFails: bool,             // the Remove capability fails
    listenFails: bool)             // the server cannot listen on its address

  /** What follows the one leading scheme of a URL, in any letter case. */
  function AfterScheme(url: string): (r: string)
    ensures |r| <= |url|
    ensures HasScheme(url) ==> |r| < |url|
  {
    if |url| >= |HttpScheme| && EqualFold(url[..|HttpScheme|], HttpScheme) then url[|HttpScheme|..]
    else if |url| >= |HttpsScheme| && EqualFold(url[..|HttpsScheme|], HttpsScheme) then url[|HttpsScheme|..]
    else url
  }

  /** The key/value store answers at this base URL: one scheme followed by
      a host:port where the store listens and nothing more (a further
      slash would make the client ask another host, or another path). */
  predicate Answers(caps: Capabilities, baseUrl: string) {
    HasScheme(baseUrl) && '/' !in AfterScheme(baseUrl) && AfterScheme(baseUrl) in caps.kvHosts
  }

  /** A URL made of one scheme, in any letter case, and a host reaches the
      store exactly when the host holds no slash and the store listens there. */
  lemma AnswersAtHost(caps: Capabilities, prefix: string, host: string)
    requires EqualFold(prefix, HttpScheme) || EqualFold(prefix, HttpsScheme)
    ensures Answers(caps, prefix + host) <==> '/' !in host && host in caps.kvHosts
  {
    var url := prefix + host;
    if EqualFold(prefix, HttpScheme) {
      assert url[..|HttpScheme|] == prefix;
      assert url[|HttpScheme|..] == host;
    } else {
      assert LowerAscii(url[4]) == 's' != LowerAscii(HttpScheme[4]);
      assert url[..|HttpsScheme|] == prefix;
      assert url[|HttpsScheme|..] == host;
    }
  }

  /** A second scheme after the first leaves a slash in the host part, so
      such a URL never reaches the store, wherever it listens. */
  lemma DoubledSchemeUnanswered(caps: Capabilities, prefix: string, host: string)
    requires EqualFold(prefix, HttpScheme)
    ensures !Answers(caps, prefix + HttpScheme + host)
  {
    assert prefix + HttpScheme + host == prefix + (HttpScheme + host);
    AnswersAtHost(caps, prefix, HttpScheme + host);
    assert (HttpScheme + host)[5] == '/';
  }

  function PutUrl(baseUrl: string, name: string, field: string): string {
    baseUrl + "/v1/kv/" + Key(name, field)
  }

  /** A write or command sent to the outside world. Reads from the store
      are not logged. */
  datatype Effect =
    | WriteFile(path: string, content: string, perm: int)
    | RunConsulTemplate(argv: seq<string>)
    | CreateConfigFromTemplates(templatesPath: string, configsPath: string)
    | Reload
    | KvPut(url: string, value: string)
    | StartupRun
    | RemoveService(serviceName: string, configsPath: string, templatesPath: string)
    | Listen(address: string)

  class Env {
    var kv: map<string, string>
    var log: seq<Effect>
    const caps: Capabilities

    constructor(caps: Capabilities, kv: map<string, string>)
      ensures this.caps == caps && this.kv == kv && log == []
    {
      this.caps := caps;
      this.kv := kv;
      log := [];
    }

    method WriteTemplate(path: string, content: string, perm: int) returns (ok: bool)
      modifies this
      ensures ok == !caps.writeFails
      ensures log == old(log) + [WriteFile(path, content, perm)] && kv == old(kv)
    {
      log := log + [WriteFile(path, content, perm)];
      ok := !caps.writeFails;
    }

    method RunCommand(argv: seq<string>) returns (ok: bool)
      modifies this
      ensures ok == !caps.consulTemplateFails
      ensures log == old(log) + [RunConsulTemplate(argv)] && kv == old(kv)
    {
      log := log + [RunConsulTemplate(argv)];
      ok := !caps.consulTemplateFails;
    }

    method CreateConfigs(templatesPath: string, configsPath: string) returns (ok: bool)
      modifies this
      ensures ok == !caps.createConfigFails
      ensures log == old(log) + [CreateConfigFromTemplates(templatesPath, configsPath)] && kv == old(kv)
    {
      log := log + [CreateConfigFromTemplates(templatesPath, configsPath)];
      ok := !caps.createConfigFails;
    }

    method ReloadProxy() returns (ok: bool)
      modifies this
      ensures ok == !caps.reloadFails
      ensures log == old(log) + [Reload] && kv == old(kv)
    {
      log := log + [Reload];
      ok := !caps.reloadFails;
    }

    /** PUT one field of a service's record. */
    method PutKey(baseUrl: string, name: string, field: string, value: string) returns (ok: bool)
      modifies this
      ensures ok == (Answers(caps, baseUrl) && field !in caps.refusedFields)
      ensures log == old(log) + [KvPut(PutUrl(baseUrl, name, field), value)]
      ensures kv == if ok then old(kv)[Key(name, field) := value] else old(kv)
    {
      log := log + [KvPut(PutUrl(baseUrl, name, field), value)];
      ok := Answers(caps, baseUrl) && field !in caps.refusedFields;
      if ok {
        kv := kv[Key(name, field) := value];
      }
    }

    /** The server's startup Run step. */
    method RunStartup() returns (ok: bool)
      modifies this
      ensures ok == !caps.runFails
      ensures log == old(log) + [StartupRun] && kv == old(kv)
    {
      log := log + [StartupRun];
      ok := !caps.runFails;
    }

    /** The Remove capability for one service. */
    method Remove(serviceName: string, configsPath: string, templatesPath: string) returns (ok: bool)
      modifies this
      ensures ok == !caps.removeFails
      ensures log == old(log) + [RemoveService(serviceName, configsPath, templatesPath)] && kv == old(kv)
    {
      log := log + [RemoveService(serviceName, configsPath, templatesPath)];
      ok := !caps.removeFails;
    }

    /** Start listening for requests. */
    method ListenAndServe(address: string) returns (ok: bool)
      modifies this
      ensures ok == !caps.listenFails
      ensures log == old(log) + [Listen(address)] && kv == old(kv)
    {
      log := log + [Listen(address)];
      ok := !caps.listenFails;
    }

    /** GET the service catalog. */
    method GetCatalog(baseUrl: string) returns (r: Result<seq<string>>)
      ensures Answers(caps, baseUrl) ==> r == Ok(caps.catalog)
      ensures !Answers(caps, baseUrl) ==> r == Err(CatalogError(baseUrl + CatalogPath))
    {
      if Answers(caps, baseUrl) {
        r := Ok(caps.catalog);
      } else {
        r := Err(CatalogError(baseUrl + CatalogPath));
      }
    }
  }

  // ---------------------------------------------------------------------------
  // Specification of the two flows
  // ---------------------------------------------------------------------------

  /** The error a flow stopped with (None on success), the calls it made,
      and the store afterwards. */
  datatype Outcome = Outcome(error: Option<Error>, effects: seq<Effect>, kv: map<string, string>)

  function ApplySpec(r: Reconfigure, address: string, text: string, caps: Capabilities, kv: map<string, string>): Outcome {
    var tp := r.base.templatesPath;
    var write := WriteFile(TemplateFile(tp), text, TemplatePerm);
    var run := RunConsulTemplate(ConsulTemplateArgs(address, tp, r.service.serviceName));
    var create := CreateConfigFromTemplates(tp, r.base.configsPath);
    if caps.writeFails then Outcome(Some(FileWriteError(TemplateFile(tp))), [write], kv)
    else if caps.consulTemplateFails then Outcome(Some(ConsulTemplateError), [write, run], kv)
    else if caps.createConfigFails then Outcome(Some(ProxyRebuildError), [write, run, create], kv)
    else if caps.reloadFails then Outcome(Some(ProxyReloadError), [write, run, create, Reload], kv)
    else Outcome(None, [write, run, create, Reload], kv)
  }

  /** The PUTs of a record, in order, up to and including the first refused one. */
  function Puts(caps: Capabilities, baseUrl: string, name: string, rec: seq<(string, string)>, kv: map<string, string>): Outcome
    decreases |rec|
  {
    if rec == [] then Outcome(None, [], kv)
    else
      var o := Puts(caps, baseUrl, name, rec[..|rec| - 1], kv);
      var field, value := rec[|rec| - 1].0, rec[|rec| - 1].1;
      var put := KvPut(PutUrl(baseUrl, name, field), value);
      if o.error.Some? then o
      else if Answers(caps, baseUrl) && field !in caps.refusedFields then
        Outcome(None, o.effects + [put], o.kv[Key(name, field) := value])
      else Outcome(Some(KvWriteError(PutUrl(baseUrl, name, field))), o.effects + [put], o.kv)
  }

  function ExecuteSpec(r: Reconfigure, caps: Capabilities, kv: map<string, string>): Outcome {
    match GetConsulTemplate(caps.files, r.service)
    case Err(e) => Outcome(Some(e), [], kv)
    case Ok(text) =>
      var applied := ApplySpec(r, r.base.consulAddress, text, caps, kv);
      if applied.error.Some? then applied
      else
        var puts := Puts(caps, WithScheme(r.base.consulAddress), r.service.serviceName, Record(r.service), kv);
        Outcome(puts.error, applied.effects + puts.effects, puts.kv)
  }

  /** One service's contribution to the aggregate: nothing for a service
      without data, else its rendered template and a separator. */
  function Block(files: map<string, string>, kv: map<string, string>, name: string): Result<string> {
    match Rebuild(kv, name)
    case None => Ok("")
    case Some(sr) =>
      match GetConsulTemplate(files, sr)
      case Err(e) => Err(e)
      case Ok(text) => Ok(text + FleetSeparator)
  }

  /** Block, as a function of the service name. */
  function Blocks(files: map<string, string>, kv: map<string, string>): string -> Result<string> {
    name => Block(files, kv, name)
  }

  /** The aggregate of the blocks of the services named, in order; the
      first error is returned. */
  function Fleet(block: string -> Result<string>, names: seq<string>): Result<string>
    decreases |names|
  {
    if names == [] then Ok("")
    else
      var prefix := Fleet(block, names[..|names| - 1]);
      var last := block(names[|names| - 1]);
      if prefix.Err? then prefix else if last.Err? then last else Ok(prefix.value + last.value)
  }

  function ReplaySpec(r: Reconfigure, address: string, caps: Capabilities, kv: map<string, string>): Outcome {
    var baseUrl := WithScheme(address);
    if !Answers(caps, baseUrl) then Outcome(Some(CatalogError(baseUrl + CatalogPath)), [], kv)
    else
      match Fleet(Blocks(caps.files, kv), caps.catalog)
      case Err(e) => Outcome(Some(e), [], kv)
      case Ok(aggregate) => ApplySpec(r, address, aggregate, caps, kv)
  }

  /** Render the services named, in order, into one aggregate: services
      without data are skipped, the first render error ends the walk. */
  method RenderFleet(files: map<string, string>, store: map<string, string>, names: seq<string>) returns (r: Result<string>)
    ensures r == Fleet(Blocks(files, store), names)
  {
    var aggregate := "";
    var i := 0;
    while i < |names|
      invariant 0 <= i <= |names|
      invariant Fleet(Blocks(files, store), names[..i]) == Ok(aggregate)
    {
      assert names[..i + 1][..i] == names[..i] && names[..i + 1][i] == names[i];
      match Rebuild(store, names[i]) {
        case None =>
          assert Blocks(files, store)(names[i]) == Ok("");
          assert aggregate + "" == aggregate;
        case Some(sr) =>
          var rendered := GetConsulTemplate(files, sr);
          if rendered.Err? {
            FleetErrorSticks(Blocks(files, store), names, i + 1);
            return Err(rendered.error);
          }
          assert Blocks(files, store)(names[i]) == Ok(rendered.value + FleetSeparator);
          assert aggregate + rendered.value + FleetSeparator == aggregate + (rendered.value + FleetSeparator);
          aggregate := aggregate + rendered.value + FleetSeparator;
      }
      i := i + 1;
    }
    assert names[..i] == names;
    return Ok(aggregate);
  }

  /** Write the fields of a record one PUT at a time, stopping at the first
      refused PUT. */
  method PutRecord(env: Env, baseUrl: string, name: string, rec: seq<(string, string)>) returns (err: Option<Error>)
    modifies env
    ensures var o := Puts(env.caps, baseUrl, name, rec, old(env.kv));
            err == o.error && env.log == old(env.log) + o.effects && env.kv == o.kv
  {
    var i := 0;
    while i < |rec|
      invariant 0 <= i <= |rec|
      invariant var o := Puts(env.caps, baseUrl, name, rec[..i], old(env.kv));
                o.error == None && env.log == old(env.log) + o.effects && env.kv == o.kv
    {
      assert rec[..i + 1][..i] == rec[..i];
      var ok := env.PutKey(baseUrl, name, rec[i].0, rec[i].1);
      if !ok {
        PutsErrorSticks(env.caps, baseUrl, name, rec, old(env.kv), i + 1);
        return Some(KvWriteError(PutUrl(baseUrl, name, rec[i].0)));
      }
      i := i + 1;
    }
    assert rec[..i] == rec;
    return None;
  }

  // ---------------------------------------------------------------------------
  // Fail-fast: once a step fails, nothing after it happens
  // ---------------------------------------------------------------------------

  lemma {:induction false} PutsErrorSticks(caps: Capabilities, baseUrl: string, name: string, rec: seq<(string, string)>, kv: map<string, string>, j: nat)
    requires j <= |rec|
    requires Puts(caps, baseUrl, name, rec[..j], kv).error.Some?
    ensures Puts(caps, baseUrl, name, rec, kv) == Puts(caps, baseUrl, name, rec[..j], kv)
    decreases |rec|
  {
    if j < |rec| {
      var init := rec[..|rec| - 1];
      assert init[..j] == rec[..j];
      PutsErrorSticks(caps, baseUrl, name, init, kv, j);
    } else {
      assert rec[..j] == rec;
    }
  }

  lemma {:induction false} FleetErrorSticks(block: string -> Result<string>, names: seq<string>, j: nat)
    requires j <= |names|
    requires Fleet(block, names[..j]).Err?
    ensures Fleet(block, names) == Fleet(block, names[..j])
    decreases |names|
  {
    if j < |names| {
      var init := names[..|names| - 1];
      assert init[..j] == names[..j];
      FleetErrorSticks(block, init, j);
    } else {
      assert names[..j] == names;
    }
  }

  // ---------------------------------------------------------------------------
  // Properties of Execute
  // ---------------------------------------------------------------------------

  /** The PUTs a fully accepted record makes. */
  function PutEffects(baseUrl: string, name: string, rec: seq<(string, string)>): seq<Effect> {
    seq(|rec|, i requires 0 <= i < |rec| => KvPut(PutUrl(baseUrl, name, rec[i].0), rec[i].1))
  }

  /** All PUTs succeed exactly when the store answers and refuses none of
      the fields; then every field has been written, in order, and the store
      holds the record. */
  lemma {:induction false} PutsSucceed(caps: Capabilities, baseUrl: string, name: string, rec: seq<(string, string)>, kv: map<string, string>)
    ensures var o := Puts(caps, baseUrl, name, rec, kv);
            o.error == None <==>
              (rec == [] || Answers(caps, baseUrl)) && forall i :: 0 <= i < |rec| ==> rec[i].0 !in caps.refusedFields
    ensures var o := Puts(caps, baseUrl, name, rec, kv);
            o.error == None ==> o.effects == PutEffects(baseUrl, name, rec) && o.kv == Stored(kv, name, rec)
    decreases |rec|
  {
    if rec != [] {
      var init := rec[..|rec| - 1];
      PutsSucceed(caps, baseUrl, name, init, kv);
      var o := Puts(caps, baseUrl, name, rec, kv);
      if o.error == None {
        assert PutEffects(baseUrl, name, rec) == PutEffects(baseUrl, name, init) + [PutEffects(baseUrl, name, rec)[|rec| - 1]];
      }
      if (rec == [] || Answers(caps, baseUrl)) && forall i :: 0 <= i < |rec| ==> rec[i].0 !in caps.refusedFields {
        assert forall i :: 0 <= i < |init| ==> init[i].0 == rec[i].0;
      }
    }
  }

  /** The calls a successful Apply makes, in order. */
  function ApplyEffects(r: Reconfigure, address: string, text: string): seq<Effect> {
    var tp := r.base.templatesPath;
    [ WriteFile(TemplateFile(tp), text, TemplatePerm),
      RunConsulTemplate(ConsulTemplateArgs(address, tp, r.service.serviceName)),
      CreateConfigFromTemplates(tp, r.base.configsPath),
      Reload ]
  }

  /** The calls a successful Execute makes, in order. */
  function ExecuteEffects(r: Reconfigure, text: string): seq<Effect> {
    ApplyEffects(r, r.base.consulAddress, text)
    + PutEffects(WithScheme(r.base.consulAddress), r.service.serviceName, Record(r.service))
  }

  /** Each failing step of Apply ends it: the calls made stop at the failing
      one, with that step's error; the store is never touched. */
  lemma ApplyFailsFast(r: Reconfigure, address: string, text: string, caps: Capabilities, kv: map<string, string>)
    ensures var o, calls := ApplySpec(r, address, text, caps, kv), ApplyEffects(r, address, text);
            && o.kv == kv
            && (caps.writeFails ==> o.error == Some(FileWriteError(TemplateFile(r.base.templatesPath))) && o.effects == calls[..1])
            && (!caps.writeFails && caps.consulTemplateFails ==> o.error == Some(ConsulTemplateError) && o.effects == calls[..2])
            && (!caps.writeFails && !caps.consulTemplateFails && caps.createConfigFails ==>
                  o.error == Some(ProxyRebuildError) && o.effects == calls[..3])
            && (!caps.writeFails && !caps.consulTemplateFails && !caps.createConfigFails && caps.reloadFails ==>
                  o.error == Some(ProxyReloadError) && o.effects == calls)
            && (o.error == None <==> !caps.writeFails && !caps.consulTemplateFails && !caps.createConfigFails && !caps.reloadFails)
            && (o.error == None ==> o.effects == calls)
  {
  }

  /** Execute succeeds exactly when the template renders, every step
      succeeds and the store accepts every field; it then has written the
      rendered template (mode 0664), run consul-template, rebuilt and
      reloaded the proxy, and PUT the six fields, and the store holds the
      record. */
  lemma ExecuteSucceeds(r: Reconfigure, caps: Capabilities, kv: map<string, string>)
    ensures var o := ExecuteSpec(r, caps, kv);
            o.error == None <==>
              && GetConsulTemplate(caps.files, r.service).Ok?
              && !caps.writeFails && !caps.consulTemplateFails
              && !caps.createConfigFails && !caps.reloadFails
              && Answers(caps, WithScheme(r.base.consulAddress))
              && forall f :: f in Fields ==> f !in caps.refusedFields
    ensures var o := ExecuteSpec(r, caps, kv);
            o.error == None ==>
              && o.effects == ExecuteEffects(r, GetConsulTemplate(caps.files, r.service).value)
              && o.kv == Stored(kv, r.service.serviceName, Record(r.service))
  {
    var rec := Record(r.service);
    PutsSucceed(caps, WithScheme(r.base.consulAddress), r.service.serviceName, rec, kv);
    assert forall f :: f in Fields <==> exists i :: 0 <= i < |rec| && rec[i].0 == f;
  }

  /** An intent the control server accepts, once executed, is what the
      fleet replay reads back for that service. */
  lemma ExecutePersistsIntent(r: Reconfigure, caps: Capabilities, kv: map<string, string>)
    requires NoSep(r.service.servicePath, ',')
    requires Join(r.service.servicePath, ',') != "" || (r.service.servicePath == [] && r.service.consulTemplatePath != "")
    requires ExecuteSpec(r, caps, kv).error == None
    ensures Rebuild(ExecuteSpec(r, caps, kv).kv, r.service.serviceName) == Some(r.service)
  {
    ExecuteSucceeds(r, caps, kv);
    RebuildStored(kv, r.service);
  }

  /** Execute stops at its first failure: an unreadable template makes no
      call at all, a failing write, consul-template run, rebuild or reload
      ends it as it ends Apply (no PUT is made), and a store that does not
      answer keeps its contents. */
  lemma ExecuteFailsFast(r: Reconfigure, caps: Capabilities, kv: map<string, string>)
    ensures var o := ExecuteSpec(r, caps, kv);
            GetConsulTemplate(caps.files, r.service).Err? ==>
              o == Outcome(Some(TemplateReadError(r.service.consulTemplatePath)), [], kv)
    ensures var o, rendered := ExecuteSpec(r, caps, kv), GetConsulTemplate(caps.files, r.service);
            rendered.Ok? && ApplySpec(r, r.base.consulAddress, rendered.value, caps, kv).error.Some? ==>
              o == ApplySpec(r, r.base.consulAddress, rendered.value, caps, kv)
    ensures var o := ExecuteSpec(r, caps, kv);
            !Answers(caps, WithScheme(r.base.consulAddress)) ==> o.kv == kv
  {
    var rendered := GetConsulTemplate(caps.files, r.service);
    if rendered.Ok? && ApplySpec(r, r.base.consulAddress, rendered.value, caps, kv).error == None
       && !Answers(caps, WithScheme(r.base.consulAddress)) {
      PutsUnansweredKeepStore(caps, WithScheme(r.base.consulAddress), r.service.serviceName, Record(r.service), kv);
    }
  }

  /** A store that does not answer takes none of the PUTs. */
  lemma {:induction false} PutsUnansweredKeepStore(caps: Capabilities, baseUrl: string, name: string, rec: seq<(string, string)>, kv: map<string, string>)
    requires !Answers(caps, baseUrl)
    ensures Puts(caps, baseUrl, name, rec, kv).kv == kv
    ensures rec != [] ==> Puts(caps, baseUrl, name, rec, kv).error == Some(KvWriteError(PutUrl(baseUrl, name, rec[0].0)))
    decreases |rec|
  {
    if rec != [] {
      var init := rec[..|rec| - 1];
      PutsUnansweredKeepStore(caps, baseUrl, name, init, kv);
      if init != [] {
        assert init[0] == rec[0];
      }
    }
  }

  /** The address of the failing PUT in the suite has a scheme and an
      empty host: what follows the scheme starts with a slash. */
  lemma EmptyHostAddress(address: string)
    requires address == "http:///THIS/URL/DOES/NOT/EXIST"
    ensures address == HttpScheme + address[|HttpScheme|..]
    ensures '/' in address[|HttpScheme|..]
  {
    assert address[|HttpScheme|..][0] == '/';
  }

  /** An address with an empty host part reaches no store, so Execute
      fails, whatever else succeeds. */
  lemma ExecuteAtEmptyHostFails(r: Reconfigure, caps: Capabilities, kv: map<string, string>)
    requires r.base.consulAddress == "http:///THIS/URL/DOES/NOT/EXIST"
    ensures ExecuteSpec(r, caps, kv).error.Some?
  {
    var address := r.base.consulAddress;
    EmptyHostAddress(address);
    var host := address[|HttpScheme|..];
    assert !Answers(caps, HttpScheme + host) by {
      assert EqualFold(HttpScheme, HttpScheme);
      AnswersAtHost(caps, HttpScheme, host);
    }
    assert WithScheme(address) == address by {
      assert HasScheme(HttpScheme + host) by {
        assert (HttpScheme + host)[..|HttpScheme|] == HttpScheme;
      }
    }
    ExecuteSucceeds(r, caps, kv);
  }

  /** A bare host:port behaves exactly as the same address with http://
      in front. */
  lemma ExecuteSchemeOptional(r: Reconfigure, caps: Capabilities, kv: map<string, string>, host: string)
    requires !HasScheme(host)
    ensures var bare, full := r.(base := r.base.(consulAddress := host)), r.(base := r.base.(consulAddress := HttpScheme + host));
            ExecuteSpec(bare, caps, kv) == ExecuteSpec(full, caps, kv)
  {
    assert HasScheme(WithScheme(host));
    StripSchemePrefix(HttpScheme, host);
    var bare, full := r.(base := r.base.(consulAddress := host)), r.(base := r.base.(consulAddress := HttpScheme + host));
    assert WithScheme(host) == WithScheme(HttpScheme + host);
    assert ConsulTemplateArgs(host, r.base.templatesPath, r.service.serviceName)
        == ConsulTemplateArgs(HttpScheme + host, r.base.templatesPath, r.service.serviceName);
    forall text ensures ApplySpec(bare, host, text, caps, kv) == ApplySpec(full, HttpScheme + host, text, caps, kv) {
    }
  }

  // ---------------------------------------------------------------------------
  // Properties of the fleet replay
  // ---------------------------------------------------------------------------

  /** A service without data adds nothing to the aggregate. */
  lemma BlockWithoutData(files: map<string, string>, kv: map<string, string>, name: string)
    requires !HasData(kv, name)
    ensures Blocks(files, kv)(name) == Ok("")
  {
  }

  /** Over a store where only one catalogued service has data, the replay
      renders that service's block alone. */
  lemma ReplaySkipsDataless(files: map<string, string>, kv: map<string, string>, before: seq<string>, name: string, after: seq<string>)
    requires forall i :: 0 <= i < |before| ==> !HasData(kv, before[i])
    requires forall i :: 0 <= i < |after| ==> !HasData(kv, after[i])
    requires Block(files, kv, name).Ok?
    ensures Fleet(Blocks(files, kv), before + [name] + after) == Block(files, kv, name)
  {
    var block := Blocks(files, kv);
    forall i | 0 <= i < |before| ensures block(before[i]) == Ok("") {
      BlockWithoutData(files, kv, before[i]);
    }
    forall i | 0 <= i < |after| ensures block(after[i]) == Ok("") {
      BlockWithoutData(files, kv, after[i]);
    }
    FleetOfOneService(block, before, name, after);
  }

  /** Services that add nothing leave the aggregate empty. */
  lemma {:induction false} FleetOfEmptyBlocks(block: string -> Result<string>, names: seq<string>)
    requires forall i :: 0 <= i < |names| ==> block(names[i]) == Ok("")
    ensures Fleet(block, names) == Ok("")
    decreases |names|
  {
    if names != [] {
      FleetOfEmptyBlocks(block, names[..|names| - 1]);
      assert "" + "" == "";
    }
  }

  /** The aggregate of a concatenated catalog is the concatenation of the
      aggregates. */
  lemma {:induction false} FleetConcat(block: string -> Result<string>, a: seq<string>, b: seq<string>)
    requires Fleet(block, a).Ok? && Fleet(block, b).Ok?
    ensures Fleet(block, a + b) == Ok(Fleet(block, a).value + Fleet(block, b).value)
    decreases |b|
  {
    if b == [] {
      assert a + b == a;
      assert Fleet(block, a).value + "" == Fleet(block, a).value;
    } else {
      var init, last := b[..|b| - 1], b[|b| - 1];
      assert (a + b)[..|a + b| - 1] == a + init;
      assert (a + b)[|a + b| - 1] == last;
      FleetConcat(block, a, init);
      var x, y, z := Fleet(block, a).value, Fleet(block, init).value, block(last).value;
      assert Fleet(block, a + b) == Ok((x + y) + z);
      assert (x + y) + z == x + (y + z);
    }
  }

  /** A catalog in which only one service adds anything yields that
      service's block alone, whatever surrounds it. */
  lemma FleetOfOneService(block: string -> Result<string>, before: seq<string>, name: string, after: seq<string>)
    requires forall i :: 0 <= i < |before| ==> block(before[i]) == Ok("")
    requires forall i :: 0 <= i < |after| ==> block(after[i]) == Ok("")
    requires block(name).Ok?
    ensures Fleet(block, before + [name] + after) == block(name)
  {
    var text := block(name).value;
    assert Fleet(block, before) == Ok("") by {
      FleetOfEmptyBlocks(block, before);
    }
    assert Fleet(block, after) == Ok("") by {
      FleetOfEmptyBlocks(block, after);
    }
    assert Fleet(block, [name]) == Ok(text) by {
      assert [name][..0] == [];
      assert "" + text == text;
    }
    assert Fleet(block, before + [name]) == Ok(text) by {
      FleetConcat(block, before, [name]);
      assert "" + text == text;
    }
    FleetConcat(block, before + [name], after);
    assert text + "" == text;
  }

  /** The replay succeeds exactly when the store answers, every replayed
      service renders and every step succeeds; it then writes the aggregate
      to the template file Execute uses, runs consul-template once, rebuilds
      and reloads. It never writes to the store. */
  lemma ReplaySucceeds(r: Reconfigure, address: string, caps: Capabilities, kv: map<string, string>)
    ensures var o := ReplaySpec(r, address, caps, kv);
            o.error == None <==>
              && Answers(caps, WithScheme(address))
              && Fleet(Blocks(caps.files, kv), caps.catalog).Ok?
              && !caps.writeFails && !caps.consulTemplateFails
              && !caps.createConfigFails && !caps.reloadFails
    ensures var o, tp := ReplaySpec(r, address, caps, kv), r.base.templatesPath;
            o.error == None ==>
              o.effects == [ WriteFile(TemplateFile(tp), Fleet(Blocks(caps.files, kv), caps.catalog).value, TemplatePerm),
                             RunConsulTemplate(ConsulTemplateArgs(address, tp, r.service.serviceName)),
                             CreateConfigFromTemplates(tp, r.base.configsPath),
                             Reload ]
    ensures ReplaySpec(r, address, caps, kv).kv == kv
  {
  }

  /** An address the store does not answer at fails before any call. */
  lemma ReplayUnanswered(r: Reconfigure, address: string, caps: Capabilities, kv: map<string, string>)
    requires !Answers(caps, WithScheme(address))
    ensures ReplaySpec(r, address, caps, kv) == Outcome(Some(CatalogError(WithScheme(address) + CatalogPath)), [], kv)
  {
  }

  /** The address of the failing replay in the suite is relative: it
      carries no scheme, and it holds a slash. */
  lemma RelativeAddress(address: string)
    requires address == "this/address/does/not/exist"
    ensures !HasScheme(address) && '/' in address
  {
    assert LowerAscii(address[1]) != LowerAscii(HttpScheme[1]);
    assert LowerAscii(address[1]) != LowerAscii(HttpsScheme[1]);
    assert address[4] == '/';
  }

  /** A relative address reaches no store: with http:// put in front, its
      host part still holds a slash, so the replay fails on the catalog
      before any call. */
  lemma ReplayOfRelativeAddressFails(r: Reconfigure, address: string, caps: Capabilities, kv: map<string, string>)
    requires address == "this/address/does/not/exist"
    ensures ReplaySpec(r, address, caps, kv) == Outcome(Some(CatalogError(HttpScheme + address + CatalogPath)), [], kv)
  {
    RelativeAddress(address);
    assert WithScheme(address) == HttpScheme + address;
    assert !Answers(caps, HttpScheme + address) by {
      AnswersAtHost(caps, HttpScheme, address);
    }
    ReplayUnanswered(r, address, caps, kv);
  }

  /** A bare host:port behaves exactly as the same address with http://
      in front. */
  lemma ReplaySchemeOptional(r: Reconfigure, caps: Capabilities, kv: map<string, string>, host: string)
    requires !HasScheme(host)
    ensures ReplaySpec(r, host, caps, kv) == ReplaySpec(r, HttpScheme + host, caps, kv)
  {
    assert HasScheme(WithScheme(host));
  }

  /** The catalog the replay tests' key/value server returns. */
  const MockCatalog: seq<string> := ["service1", "service2", "myService"]

  /** The intent that server holds for myService. */
  const MockIntent := ServiceReconfigure("myService", "orange", TestPaths, "my-domain.com", "", "", false)

  /** That server's keys: only myService has fields, and no custom template. */
  const MockStore: map<string, string> := map[
    Key("myService", PathKey) := Join(TestPaths, ','),
    Key("myService", ColorKey) := "orange",
    Key("myService", DomainKey) := "my-domain.com",
    Key("myService", PathTypeKey) := "",
    Key("myService", SkipCheckKey) := FormatBool(false)]

  lemma MockStoreLacks(other: string)
    requires other != "myService"
    ensures !HasData(MockStore, other)
  {
    forall g | g in [PathKey, ColorKey, DomainKey, PathTypeKey, SkipCheckKey]
      ensures Key(other, PathKey) != Key("myService", g)
      ensures Key(other, ConsulTemplatePathKey) != Key("myService", g)
    {
      KeyInjective(other, PathKey, "myService", g);
      KeyInjective(other, ConsulTemplatePathKey, "myService", g);
    }
  }

  lemma TestPathsHaveNoComma()
    ensures NoSep(TestPaths, ',')
  {
    assert ',' !in TestPaths[0];
    assert ',' !in TestPaths[1];
  }

  lemma MockStoreRebuildsMyService()
    ensures Rebuild(MockStore, "myService") == Some(MockIntent)
  {
    TestPathsHaveNoComma();
    SplitJoin(TestPaths, ',');
    var path := Join(TestPaths, ',');
    assert Lookup(MockStore, Key("myService", PathKey)) == path;
    assert Lookup(MockStore, Key("myService", ColorKey)) == "orange";
    assert Lookup(MockStore, Key("myService", DomainKey)) == "my-domain.com";
    assert Lookup(MockStore, Key("myService", ConsulTemplatePathKey)) == "";
  }

  lemma MockStoreRendersMyService()
    ensures Block(map[], MockStore, "myService") == Ok(Text(MockIntent) + FleetSeparator)
  {
    MockStoreRebuildsMyService();
  }

  /** The replay over that catalog skips service1 and service2 and renders
      myService's block alone. */
  lemma ReplayOfMockStore()
    ensures Fleet(Blocks(map[], MockStore), MockCatalog) == Ok(Text(MockIntent) + FleetSeparator)
  {
    var before: seq<string> := ["service1", "service2"];
    assert forall i :: 0 <= i < |before| ==> !HasData(MockStore, before[i]) by {
      MockStoreLacks("service1");
      MockStoreLacks("service2");
    }
    assert Block(map[], MockStore, "myService").Ok? by {
      MockStoreRendersMyService();
    }
    ReplaySkipsDataless(map[], MockStore, before, "myService", []);
    assert MockCatalog == before + ["myService"] + [];
    MockStoreRendersMyService();
  }

  /** After a successful Execute of an accepted intent, a replay over a
      catalog where no other service has data renders exactly that intent's
      template. */
  lemma ExecuteThenReplay(r: Reconfigure, caps: Capabilities, kv: map<string, string>, before: seq<string>, after: seq<string>)
    requires NoSep(r.service.servicePath, ',')
    requires Join(r.service.servicePath, ',') != "" || (r.service.servicePath == [] && r.service.consulTemplatePath != "")
    requires ExecuteSpec(r, caps, kv).error == None
    requires forall i :: 0 <= i < |before| ==> before[i] != r.service.serviceName && !HasData(kv, before[i])
    requires forall i :: 0 <= i < |after| ==> after[i] != r.service.serviceName && !HasData(kv, after[i])
    ensures Fleet(Blocks(caps.files, ExecuteSpec(r, caps, kv).kv), before + [r.service.serviceName] + after)
         == Ok(GetConsulTemplate(caps.files, r.service).value + FleetSeparator)
  {
    var kv' := ExecuteSpec(r, caps, kv).kv;
    ExecuteSucceeds(r, caps, kv);
    ExecutePersistsIntent(r, caps, kv);
    forall i | 0 <= i < |before| ensures !HasData(kv', before[i]) {
      StoreUntouchedData(kv, r.service, before[i]);
    }
    forall i | 0 <= i < |after| ensures !HasData(kv', after[i]) {
      StoreUntouchedData(kv, r.service, after[i]);
    }
    assert Block(caps.files, kv', r.service.serviceName) == Ok(GetConsulTemplate(caps.files, r.service).value + FleetSeparator);
    ReplaySkipsDataless(caps.files, kv', before, r.service.serviceName, after);
  }

  /** Writing one service's record leaves whether another has data as it was. */
  lemma StoreUntouchedData(kv: map<string, string>, sr: ServiceReconfigure, other: string)
    requires other != sr.serviceName
    ensures HasData(Stored(kv, sr.serviceName, Record(sr)), other) == HasData(kv, other)
  {
    StoreTouchesOnlyOwnKeys(kv, sr, other, PathKey);
    StoreTouchesOnlyOwnKeys(kv, sr, other, ConsulTemplatePathKey);
  }
}
