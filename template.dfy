/** GetConsulTemplate: the HAProxy frontend/backend fragment, written as a
    consul-template template, that routes one service. */
module Template {
  import opened Strings
  import opened Failures

  /** The routing intent of one service (Go's ServiceReconfigure). */
  datatype ServiceReconfigure = ServiceReconfigure(
    serviceName: string,
    serviceColor: string,
    servicePath: seq<string>,
    serviceDomain: string,
    consulTemplatePath: string,
    pathType: string,
    skipCheck: bool)

  /** An intent that names only a service; every other field is unset. */
  function Named(name: string): ServiceReconfigure {
    ServiceReconfigure(name, "", [], "", "", "", false)
  }

  const DefaultPathType := "path_beg"

  /** The fixed listener lines of every frontend. */
  const BindLines: seq<string> := ["\tbind *:80", "\tbind *:443", "\toption http-server-close"]

  const EndLine := "\t{{end}}"

  /** An empty PathType means path_beg; any other value is used as given. */
  function PathOperator(pathType: string): string {
    if pathType == "" then DefaultPathType else pathType
  }

  /** " <op> <p1> <op> <p2> ...": one match term per path, in order. */
  function AclTerms(op: string, paths: seq<string>): string {
    if paths == [] then "" else " " + op + " " + paths[0] + AclTerms(op, paths[1..])
  }

  /** The service-discovery name: the service, or "<service>-<color>". */
  function DiscoveryTarget(sr: ServiceReconfigure): string {
    if sr.serviceColor == "" then sr.serviceName else sr.serviceName + "-" + sr.serviceColor
  }

  function AclLine(sr: ServiceReconfigure): string {
    "\tacl url_" + sr.serviceName + AclTerms(PathOperator(sr.pathType), sr.servicePath)
  }

  function DomainLine(name: string, domain: string): string {
    "\tacl domain_" + name + " hdr_dom(host) -i " + domain
  }

  function UseBackendLine(sr: ServiceReconfigure): string {
    "\tuse_backend " + sr.serviceName + "-be if url_" + sr.serviceName
      + (if sr.serviceDomain == "" then "" else " domain_" + sr.serviceName)
  }

  function RangeLine(target: string): string {
    "\t{{range $i, $e := service \"" + target + "\" \"any\"}}"
  }

  function ServerLine(skipCheck: bool): string {
    "\tserver {{$e.Node}}_{{$i}}_{{$e.Port}}" + " {{$e.Address}}:{{$e.Port}}"
      + (if skipCheck then "" else " check")
  }

  function FrontendLines(sr: ServiceReconfigure): seq<string> {
    ["frontend " + sr.serviceName + "-fe"] + BindLines + [AclLine(sr)]
      + (if sr.serviceDomain == "" then [] else [DomainLine(sr.serviceName, sr.serviceDomain)])
      + [UseBackendLine(sr)]
  }

  function BackendLines(sr: ServiceReconfigure): seq<string> {
    ["backend " + sr.serviceName + "-be", RangeLine(DiscoveryTarget(sr)), ServerLine(sr.skipCheck), EndLine]
  }

  /** The generated fragment, line by line (a blank line between frontend and backend). */
  function Lines(sr: ServiceReconfigure): seq<string> {
    FrontendLines(sr) + [""] + BackendLines(sr)
  }

  /** The generated fragment as text: its lines joined by newlines, no trailing newline. */
  function Text(sr: ServiceReconfigure): string {
    Join(Lines(sr), '\n')
  }

  /** GetConsulTemplate. With ConsulTemplatePath set, the file at that path is
      returned verbatim (`files` holds the readable files and their contents);
      otherwise the fragment is generated from the intent. */
  function GetConsulTemplate(files: map<string, string>, sr: ServiceReconfigure): (r: Result<string>)
    ensures r.Err? <==> sr.consulTemplatePath != "" && sr.consulTemplatePath !in files
    ensures r.Err? ==> r.error == TemplateReadError(sr.consulTemplatePath)
    ensures sr.consulTemplatePath != "" && sr.consulTemplatePath in files ==>
              r == Ok(files[sr.consulTemplatePath])
    ensures sr.consulTemplatePath == "" ==> r == Ok(Text(sr))
  {
    if sr.consulTemplatePath != "" then
      if sr.consulTemplatePath in files then Ok(files[sr.consulTemplatePath])
      else Err(TemplateReadError(sr.consulTemplatePath))
    else Ok(Text(sr))
  }

  // ---------------------------------------------------------------------------
  // The text is made of exactly these lines
  // ---------------------------------------------------------------------------

  /** No field of the intent holds a line break. */
  predicate SingleLineFields(sr: ServiceReconfigure) {
    && '\n' !in sr.serviceName
    && '\n' !in sr.serviceColor
    && '\n' !in sr.serviceDomain
    && '\n' !in sr.pathType
    && forall i :: 0 <= i < |sr.servicePath| ==> '\n' !in sr.servicePath[i]
  }

  lemma {:induction false} AclTermsSingleLine(op: string, paths: seq<string>)
    requires '\n' !in op && forall i :: 0 <= i < |paths| ==> '\n' !in paths[i]
    ensures '\n' !in AclTerms(op, paths)
    decreases |paths|
  {
    if paths != [] {
      AclTermsSingleLine(op, paths[1..]);
    }
  }

  lemma BindLinesSingle()
    ensures NoSep(BindLines, '\n')
  {
    assert '\n' !in "\toption http-server-close";
  }

  lemma DomainLineSingle(n: string, d: string)
    requires '\n' !in n && '\n' !in d
    ensures '\n' !in DomainLine(n, d)
  {
    assert '\n' !in " hdr_dom(host) -i ";
  }

  lemma FrontendSingleLines(sr: ServiceReconfigure)
    requires SingleLineFields(sr)
    ensures NoSep(FrontendLines(sr), '\n')
  {
    AclTermsSingleLine(PathOperator(sr.pathType), sr.servicePath);
    BindLinesSingle();
    DomainLineSingle(sr.serviceName, sr.serviceDomain);
  }

  lemma BackendSingleLines(sr: ServiceReconfigure)
    requires SingleLineFields(sr)
    ensures NoSep(BackendLines(sr), '\n')
  {
    assert '\n' !in "\t{{range $i, $e := service \"";
    ServerLineSingle(sr.skipCheck);
  }

  lemma ServerLineSingle(skipCheck: bool)
    ensures '\n' !in ServerLine(skipCheck)
  {
    assert '\n' !in "\tserver {{$e.Node}}_{{$i}}_{{$e.Port}}";
    assert '\n' !in " {{$e.Address}}:{{$e.Port}}";
  }

  /** Splitting the generated text at line breaks gives back its lines, as
      long as no field of the intent holds a line break. */
  lemma LinesRoundTrip(sr: ServiceReconfigure)
    requires SingleLineFields(sr)
    ensures Split(Text(sr), '\n') == Lines(sr)
  {
    FrontendSingleLines(sr);
    BackendSingleLines(sr);
    var F, B := FrontendLines(sr), BackendLines(sr);
    assert NoSep(F + [""] + B, '\n') by {
      forall i | 0 <= i < |F| + 1 + |B| ensures '\n' !in (F + [""] + B)[i] {
        if i > |F| {
          assert (F + [""] + B)[i] == B[i - |F| - 1];
        }
      }
    }
    SplitJoin(Lines(sr), '\n');
  }

  // ---------------------------------------------------------------------------
  // The fragments the test suite fixes byte for byte
  // ---------------------------------------------------------------------------

  const TestPaths: seq<string> := ["path/to/my/service/api", "path/to/my/other/service/api"]

  /** The intent the test suite renders: two paths, no color, domain or path type. */
  const TestIntent := ServiceReconfigure("myService", "", TestPaths, "", "", "", false)

  /** The expected fragment of reconfigure_test.go, one entry per line of its
      raw string literal (which has no trailing newline). Each line is the
      test's text, split where the service name or a path appears in it. */
  const ExpectedDefaultLines: seq<string> := [
    "frontend " + "myService" + "-fe",
    "\tbind *:80",
    "\tbind *:443",
    "\toption http-server-close",
    "\tacl url_" + "myService" + " " + "path_beg" + " " + "path/to/my/service/api"
      + " " + "path_beg" + " " + "path/to/my/other/service/api",
    "\tuse_backend " + "myService" + "-be if url_" + "myService",
    "",
    "backend " + "myService" + "-be",
    "\t{{range $i, $e := service \"" + "myService" + "\" \"any\"}}",
    "\tserver {{$e.Node}}_{{$i}}_{{$e.Port}}" + " {{$e.Address}}:{{$e.Port}}" + " check",
    "\t{{end}}"]

  /** The expected fragment once the domain my-domain.com is set: a host acl
      after the path acl, and use_backend requiring both. */
  const ExpectedWithDomainLines: seq<string> :=
    ExpectedDefaultLines[..5]
    + ["\tacl domain_" + "myService" + " hdr_dom(host) -i " + "my-domain.com",
       "\tuse_backend " + "myService" + "-be if url_" + "myService" + " domain_" + "myService"]
    + ExpectedDefaultLines[6..]

  /** The acl line of the test intent: both paths, in order, each behind path_beg. */
  lemma TestAclLine(sr: ServiceReconfigure)
    requires sr.serviceName == "myService" && sr.pathType == "" && sr.servicePath == TestPaths
    ensures AclLine(sr) == ExpectedDefaultLines[4]
  {
    var rest := TestPaths[1..];
    assert rest[0] == "path/to/my/other/service/api" && rest[1..] == [];
  }

  /** The backend of the test intent: discovery of "myService", with the health check. */
  lemma TestBackendLines(sr: ServiceReconfigure)
    requires sr.serviceName == "myService" && sr.serviceColor == "" && !sr.skipCheck
    ensures BackendLines(sr) == ExpectedDefaultLines[7..]
  {
  }

  /** reconfigure_test.go's default case: the generated fragment is, line for
      line, the expected text. */
  lemma RendersExpectedDefault()
    ensures GetConsulTemplate(map[], TestIntent) == Ok(Join(ExpectedDefaultLines, '\n'))
  {
    var sr := TestIntent;
    TestAclLine(sr);
    assert UseBackendLine(sr) == ExpectedDefaultLines[5];
    assert FrontendLines(sr) == ExpectedDefaultLines[..6];
    TestBackendLines(sr);
    assert Lines(sr) == ExpectedDefaultLines;
  }

  /** reconfigure_test.go's domain case. */
  lemma RendersExpectedWithDomain()
    ensures GetConsulTemplate(map[], TestIntent.(serviceDomain := "my-domain.com"))
         == Ok(Join(ExpectedWithDomainLines, '\n'))
  {
    var sr := TestIntent.(serviceDomain := "my-domain.com");
    TestAclLine(sr);
    assert DomainLine(sr.serviceName, sr.serviceDomain) == ExpectedWithDomainLines[5];
    assert UseBackendLine(sr) == ExpectedWithDomainLines[6];
    assert FrontendLines(sr) == ExpectedWithDomainLines[..7];
    TestBackendLines(sr);
    assert Lines(sr) == ExpectedWithDomainLines;
  }

  // ---------------------------------------------------------------------------
  // Each option changes only its own token
  // ---------------------------------------------------------------------------

  const PathReg := "path_reg"

  /** No field of the intent mentions path_beg. */
  ghost predicate FreeOfPathBeg(sr: ServiceReconfigure) {
    && Free(sr.serviceName, DefaultPathType)
    && Free(sr.serviceColor, DefaultPathType)
    && Free(sr.serviceDomain, DefaultPathType)
    && forall i :: 0 <= i < |sr.servicePath| ==> Free(sr.servicePath[i], DefaultPathType)
  }

  /** A fixed text without the letter p cannot hold path_beg. */
  lemma FreeLiteral(s: string)
    requires 'p' !in s
    ensures Free(s, DefaultPathType)
  {
    FreeByChar(s, DefaultPathType, 'p');
  }

  /** A fixed text without p, followed by free text. */
  lemma FreeAfterLiteral(lit: string, x: string)
    requires 'p' !in lit && Free(x, DefaultPathType)
    ensures Free(lit + x, DefaultPathType)
  {
    FreeLiteral(lit);
    NoSpanByLeft(lit, x, DefaultPathType);
    FreeConcat(lit, x, DefaultPathType);
  }

  /** Free text followed by a fixed text without p that starts with a
      character path_beg has only at its start, or not at all. */
  lemma FreeBeforeLiteral(x: string, lit: string)
    requires Free(x, DefaultPathType) && 'p' !in lit && lit != [] && lit[0] !in DefaultPathType[1..]
    ensures Free(x + lit, DefaultPathType)
  {
    FreeLiteral(lit);
    NoSpanByRight(x, lit, DefaultPathType);
    FreeConcat(x, lit, DefaultPathType);
  }

  /** Free text ending in a fixed text of at least seven characters without p,
      followed by free text. */
  lemma FreeAcrossLiteral(pre: string, lit: string, x: string)
    requires Free(pre + lit, DefaultPathType) && 'p' !in lit && |lit| >= 7 && Free(x, DefaultPathType)
    ensures Free(pre + lit + x, DefaultPathType)
  {
    NoSpanByTail(pre, lit, x, DefaultPathType);
    FreeConcat(pre + lit, x, DefaultPathType);
  }

  /** Free text ending in a character path_beg has only at its end, or not at
      all, followed by free text. */
  lemma FreeAfterSeparator(a: string, x: string)
    requires Free(a, DefaultPathType) && a != [] && a[|a| - 1] !in DefaultPathType[..7] && Free(x, DefaultPathType)
    ensures Free(a + x, DefaultPathType)
  {
    NoSpanByLast(a, x, DefaultPathType);
    FreeConcat(a, x, DefaultPathType);
  }

  /** A free name between two fixed texts without p, the second of which
      cannot continue a path_beg. */
  lemma FreeWrapped(pre: string, n: string, post: string)
    requires 'p' !in pre && Free(n, DefaultPathType)
    requires 'p' !in post && post != [] && post[0] !in DefaultPathType[1..]
    ensures Free(pre + n + post, DefaultPathType)
  {
    FreeAfterLiteral(pre, n);
    FreeBeforeLiteral(pre + n, post);
  }

  lemma FreeDomainLine(n: string, d: string)
    requires Free(n, DefaultPathType) && Free(d, DefaultPathType)
    ensures Free(DomainLine(n, d), DefaultPathType)
  {
    FreeAfterLiteral("\tacl domain_", n);
    FreeBeforeLiteral("\tacl domain_" + n, " hdr_dom(host) -i ");
    FreeAfterSeparator("\tacl domain_" + n + " hdr_dom(host) -i ", d);
  }

  lemma FreeUseBackendLine(sr: ServiceReconfigure)
    requires Free(sr.serviceName, DefaultPathType)
    ensures Free(UseBackendLine(sr), DefaultPathType)
  {
    var n := sr.serviceName;
    FreeAfterLiteral("\tuse_backend ", n);
    FreeBeforeLiteral("\tuse_backend " + n, "-be if url_");
    FreeAcrossLiteral("\tuse_backend " + n, "-be if url_", n);
    var ub := "\tuse_backend " + n + "-be if url_" + n;
    if sr.serviceDomain != "" {
      FreeBeforeLiteral(ub, " domain_");
      FreeAcrossLiteral(ub, " domain_", n);
      assert UseBackendLine(sr) == ub + " domain_" + n;
    } else {
      assert UseBackendLine(sr) == ub;
    }
  }

  lemma FreeRangeLine(sr: ServiceReconfigure)
    requires Free(sr.serviceName, DefaultPathType) && Free(sr.serviceColor, DefaultPathType)
    ensures Free(RangeLine(DiscoveryTarget(sr)), DefaultPathType)
  {
    var target := DiscoveryTarget(sr);
    if sr.serviceColor != "" {
      FreeBeforeLiteral(sr.serviceName, "-");
      FreeAfterSeparator(sr.serviceName + "-", sr.serviceColor);
    }
    FreeAfterLiteral("\t{{range $i, $e := service \"", target);
    FreeBeforeLiteral("\t{{range $i, $e := service \"" + target, "\" \"any\"}}");
  }

  lemma ServerHeadLacksP()
    ensures 'p' !in "\tserver {{$e.Node}}_{{$i}}_{{$e.Port}}"
  {
  }

  lemma ServerTailLacksP()
    ensures 'p' !in " {{$e.Address}}:{{$e.Port}}"
  {
  }

  lemma FreeServerLine(skipCheck: bool)
    ensures Free(ServerLine(skipCheck), DefaultPathType)
  {
    ServerHeadLacksP();
    ServerTailLacksP();
    FreeLiteral(ServerLine(skipCheck));
  }

  /** The frontend lines other than the acl line are free of path_beg. */
  lemma FreeFrontendButAcl(sr: ServiceReconfigure)
    requires FreeOfPathBeg(sr)
    ensures forall i :: 0 <= i < |FrontendLines(sr)| && i != 4 ==> Free(FrontendLines(sr)[i], DefaultPathType)
  {
    FreeWrapped("frontend ", sr.serviceName, "-fe");
    FreeLiteral(BindLines[0]);
    FreeLiteral(BindLines[1]);
    FreeByChar(BindLines[2], DefaultPathType, 'g');
    if sr.serviceDomain != "" {
      FreeDomainLine(sr.serviceName, sr.serviceDomain);
    }
    FreeUseBackendLine(sr);
  }

  /** The backend lines are free of path_beg. */
  lemma FreeBackend(sr: ServiceReconfigure)
    requires FreeOfPathBeg(sr)
    ensures forall i :: 0 <= i < |BackendLines(sr)| ==> Free(BackendLines(sr)[i], DefaultPathType)
  {
    FreeWrapped("backend ", sr.serviceName, "-be");
    FreeRangeLine(sr);
    FreeServerLine(sr.skipCheck);
    FreeLiteral(EndLine);
  }

  /** Every line but the acl line is free of path_beg. */
  lemma FreeLinesButAcl(sr: ServiceReconfigure)
    requires FreeOfPathBeg(sr)
    ensures forall i :: 0 <= i < |Lines(sr)| && i != 4 ==> Free(Lines(sr)[i], DefaultPathType)
  {
    FreeFrontendButAcl(sr);
    FreeBackend(sr);
    FreeLiteral("");
    var F, B := FrontendLines(sr), BackendLines(sr);
    assert Lines(sr) == F + [""] + B;
    forall i | 0 <= i < |F| + 1 + |B| && i != 4 ensures Free((F + [""] + B)[i], DefaultPathType) {
      if i > |F| {
        assert (F + [""] + B)[i] == B[i - |F| - 1];
      }
    }
  }

  /** In the match terms, replacing path_beg by path_reg switches the operator
      and leaves the paths alone. */
  lemma {:induction false} ReplaceAclTerms(paths: seq<string>)
    requires forall i :: 0 <= i < |paths| ==> Free(paths[i], DefaultPathType)
    ensures Replace(AclTerms(DefaultPathType, paths), DefaultPathType, PathReg) == AclTerms(PathReg, paths)
    decreases |paths|
  {
    if paths != [] {
      var f, t := DefaultPathType, PathReg;
      var p, rest := paths[0], AclTerms(f, paths[1..]);
      var head := " " + f + " " + p;
      if rest != [] {
        assert rest[0] == ' ';
        NoSpanByRight(head, rest, f);
        ReplaceConcat(head, rest, f, t);
      } else {
        assert head + rest == head;
      }
      NoSpanByLast(" " + f + " ", p, f);
      ReplaceConcat(" " + f + " ", p, f, t);
      ReplaceFree(p, f, t);
      NoSpanByRight(" " + f, " ", f);
      ReplaceConcat(" " + f, " ", f, t);
      NoSpanByLast(" ", f, f);
      ReplaceConcat(" ", f, f, t);
      FreeLiteral(" ");
      ReplaceFree(" ", f, t);
      ReplaceWhole(f, t);
      ReplaceAclTerms(paths[1..]);
    }
  }

  /** Replacing path_beg by path_reg in the acl line of a path_beg intent
      gives the acl line of the same intent with path type path_reg. */
  lemma ReplaceAclLine(sr: ServiceReconfigure)
    requires sr.pathType == "" || sr.pathType == DefaultPathType
    requires FreeOfPathBeg(sr)
    ensures Replace(AclLine(sr), DefaultPathType, PathReg) == AclLine(sr.(pathType := PathReg))
  {
    var f, t := DefaultPathType, PathReg;
    var head := "\tacl url_" + sr.serviceName;
    var terms := AclTerms(f, sr.servicePath);
    FreeAfterLiteral("\tacl url_", sr.serviceName);
    ReplaceFree(head, f, t);
    if terms != [] {
      NoSpanByRight(head, terms, f);
      ReplaceConcat(head, terms, f, t);
    } else {
      assert head + terms == head;
    }
    ReplaceAclTerms(sr.servicePath);
  }

  /** Replacing leaves every free line as it is. */
  lemma ReplaceKeepsFreeLines(L: seq<string>, k: int)
    requires forall i :: 0 <= i < |L| && i != k ==> Free(L[i], DefaultPathType)
    ensures forall i :: 0 <= i < |L| && i != k ==> Replace(L[i], DefaultPathType, PathReg) == L[i]
  {
    forall i | 0 <= i < |L| && i != k ensures Replace(L[i], DefaultPathType, PathReg) == L[i] {
      ReplaceFree(L[i], DefaultPathType, PathReg);
    }
  }

  /** The path type shows only in the acl line, the fifth line. */
  lemma PathTypeOnlyInAclLine(sr: ServiceReconfigure, pathType: string)
    ensures Lines(sr.(pathType := pathType)) == Lines(sr)[4 := AclLine(sr.(pathType := pathType))]
  {
    var sr' := sr.(pathType := pathType);
    assert FrontendLines(sr') == FrontendLines(sr)[4 := AclLine(sr')];
    assert BackendLines(sr') == BackendLines(sr);
  }

  /** Line by line, replacing path_beg by path_reg turns the path_beg render
      into the path_reg render. */
  lemma ReplaceLines(sr: ServiceReconfigure)
    requires sr.pathType == "" || sr.pathType == DefaultPathType
    requires FreeOfPathBeg(sr)
    ensures ReplaceEach(Lines(sr), DefaultPathType, PathReg) == Lines(sr.(pathType := PathReg))
  {
    var L := Lines(sr);
    FreeLinesButAcl(sr);
    ReplaceKeepsFreeLines(L, 4);
    ReplaceAclLine(sr);
    PathTypeOnlyInAclLine(sr, PathReg);
  }

  /** reconfigure_test.go's path_reg case: rendering with path type path_reg
      is the path_beg render with every path_beg replaced by path_reg, as long
      as no field of the intent itself mentions path_beg; an empty path type
      renders as path_beg. */
  lemma PathTypeOnlyChangesOperator(sr: ServiceReconfigure)
    requires sr.pathType == "" || sr.pathType == DefaultPathType
    requires FreeOfPathBeg(sr)
    ensures Replace(Text(sr), DefaultPathType, PathReg) == Text(sr.(pathType := PathReg))
    ensures Text(sr.(pathType := "")) == Text(sr.(pathType := DefaultPathType))
  {
    ReplaceJoin(Lines(sr), '\n', DefaultPathType, PathReg);
    ReplaceLines(sr);
  }

  /** reconfigure_test.go's domain case in general: a domain adds exactly one
      line, the host acl right after the path acl, and appends its condition
      to use_backend; every other line is unchanged. */
  lemma DomainAddsHostAcl(sr: ServiceReconfigure, domain: string)
    requires domain != ""
    ensures var L := Lines(sr.(serviceDomain := ""));
            Lines(sr.(serviceDomain := domain))
              == L[..5] + [DomainLine(sr.serviceName, domain), L[5] + " domain_" + sr.serviceName] + L[6..]
  {
    var off, on := sr.(serviceDomain := ""), sr.(serviceDomain := domain);
    var n := sr.serviceName;
    assert UseBackendLine(off) + " domain_" + n == UseBackendLine(on);
    assert FrontendLines(off)[5] == UseBackendLine(off);
    assert FrontendLines(on) == FrontendLines(off)[..5] + [DomainLine(n, domain), UseBackendLine(on)];
    assert Lines(off)[..5] == FrontendLines(off)[..5];
    assert Lines(off)[6..] == [""] + BackendLines(off);
  }

  const CheckTail := "\n" + EndLine

  /** The health check shows only in the server line, the second to last. */
  lemma SkipCheckOnlyInServerLine(sr: ServiceReconfigure, skipCheck: bool)
    ensures var head := FrontendLines(sr) + [""] + ["backend " + sr.serviceName + "-be", RangeLine(DiscoveryTarget(sr))];
            Lines(sr.(skipCheck := skipCheck)) == head + [ServerLine(skipCheck), EndLine]
  {
  }

  /** reconfigure_test.go's skip-check case: with the health check on, the
      text is the skip-check text with " check" put back just before the
      final "\n\t{{end}}", and nowhere else. */
  lemma SkipCheckDropsOnlyCheck(sr: ServiceReconfigure)
    ensures var on, off := Text(sr.(skipCheck := false)), Text(sr.(skipCheck := true));
            && |off| >= |CheckTail|
            && off[|off| - |CheckTail|..] == CheckTail
            && on == off[..|off| - |CheckTail|] + " check" + CheckTail
  {
    var head := FrontendLines(sr) + [""] + ["backend " + sr.serviceName + "-be", RangeLine(DiscoveryTarget(sr))];
    SkipCheckOnlyInServerLine(sr, false);
    SkipCheckOnlyInServerLine(sr, true);
    assert ServerLine(false) == ServerLine(true) + " check";
    JoinInsertBeforeLast(head, ServerLine(true), " check", EndLine, '\n');
  }

  /** The color shows only in the range line, the third to last. */
  lemma ColorOnlyInRangeLine(sr: ServiceReconfigure, color: string)
    requires color != ""
    ensures var L := Lines(sr.(serviceColor := ""));
            Lines(sr.(serviceColor := color)) == L[|L| - 3 := RangeLine(sr.serviceName + "-" + color)]
  {
    var on, off := sr.(serviceColor := color), sr.(serviceColor := "");
    assert FrontendLines(on) == FrontendLines(off);
    assert BackendLines(on) == BackendLines(off)[1 := RangeLine(sr.serviceName + "-" + color)];
  }

  /** The range line names its discovery target as `service "<target>"`. */
  lemma RangeLineNamesTarget(target: string)
    ensures Contains(RangeLine(target), "service \"" + target + "\"")
  {
    var m := "service \"" + target + "\"";
    assert "\t{{range $i, $e := service \"" == "\t{{range $i, $e := " + "service \"";
    assert "\" \"any\"}}" == "\"" + " \"any\"}}";
    assert RangeLine(target) == "\t{{range $i, $e := " + m + " \"any\"}}";
    ContainsMiddle("\t{{range $i, $e := ", "service \"" + target + "\"", " \"any\"}}");
  }

  /** reconfigure_test.go's color case: with a color, service discovery asks
      for "<name>-<color>", and no other line changes. */
  lemma ColorSelectsTarget(sr: ServiceReconfigure, color: string)
    requires color != ""
    ensures Contains(Text(sr.(serviceColor := color)), "service \"" + sr.serviceName + "-" + color + "\"")
    ensures var L := Lines(sr.(serviceColor := ""));
            Lines(sr.(serviceColor := color)) == L[|L| - 3 := RangeLine(sr.serviceName + "-" + color)]
  {
    var on := sr.(serviceColor := color);
    var L := Lines(on);
    var k := |FrontendLines(on)| + 2;
    var target := sr.serviceName + "-" + color;
    assert L[k] == RangeLine(target);
    JoinContains(L, '\n', k);
    RangeLineNamesTarget(target);
    ContainsTrans(Text(on), L[k], "service \"" + target + "\"");
    assert "service \"" + target + "\"" == "service \"" + sr.serviceName + "-" + color + "\"";
    ColorOnlyInRangeLine(sr, color);
  }
}
