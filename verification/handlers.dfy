/** The three tool handlers of the deploy server and the dispatch that turns
    what they throw into error replies. The file system, the `pinme` command
    and the HTTP probe are inputs: a `FileSystem` map, a function from a
    command line to what running it gives, and a function from a URL to what
    a HEAD request gives. */
module Handlers {
  import opened Wrappers
  import opened Text
  import opened BuildDir
  import opened UploadOutput
  import opened Listing
  import opened Patterns

  // ---------------------------------------------------------------------------
  // Running `pinme`

  /** The `code` property of a failed run: absent, a system error name such
      as `ENOENT`, or the exit status of the command. */
  datatype ErrorCode = NoCode | Named(name: string) | ExitStatus(status: int)

  datatype ProcessError = ProcessError(code: ErrorCode, message: string)

  /** What running one command line gives. */
  datatype ExecResult = Completed(stdout: string, stderr: string) | Failed(error: ProcessError)

  /** The command line that uploads `path`. */
  function UploadCommand(path: string): string {
    "pinme upload \"" + path + "\""
  }

  const ListCommand: string := "pinme list"

  /** `stdout || stderr`. */
  function OutputOf(stdout: string, stderr: string): (output: string)
    ensures output == "" <==> stdout == "" && stderr == ""
    ensures stdout != "" ==> output == stdout
    ensures stdout == "" ==> output == stderr
  {
    if stdout != "" then stdout else stderr
  }

  /** A failure read as "the CLI is not installed": the system could not find
      the program, or the message mentions `pinme`. A message that quotes
      either command line the server runs mentions `pinme`, so such a failure
      counts as a missing CLI too, whatever its cause. */
  function IsCliMissing(e: ProcessError): (r: bool)
    ensures e.code == Named("ENOENT") ==> r
    ensures IsSubstring(ListCommand, e.message) ==> r
    ensures forall path :: IsSubstring(UploadCommand(path), e.message) ==> r
  {
    assert forall path :: IsSubstring(UploadCommand(path), e.message) ==> IsSubstring("pinme", e.message) by {
      forall path | IsSubstring(UploadCommand(path), e.message) ensures IsSubstring("pinme", e.message) {
        assert HasAt(UploadCommand(path), 0, "pinme");
        SubstringTransitive("pinme", UploadCommand(path), e.message);
      }
    }
    assert IsSubstring(ListCommand, e.message) ==> IsSubstring("pinme", e.message) by {
      if IsSubstring(ListCommand, e.message) {
        assert HasAt(ListCommand, 0, "pinme");
        SubstringTransitive("pinme", ListCommand, e.message);
      }
    }
    e.code == Named("ENOENT") || IsSubstring("pinme", e.message)
  }

  // ---------------------------------------------------------------------------
  // Replies

  /** A tool reply: its one text item and the `isError` flag. */
  datatype Response = Response(text: string, isError: bool)

  /** A handler either returns a reply or throws an error with a message. */
  datatype Outcome = Returned(response: Response) | Thrown(message: string)

  /** The dispatcher's `catch`: a thrown error becomes an error reply. */
  function Respond(o: Outcome): (r: Response)
    ensures r.isError <==> o.Thrown? || o.response.isError
    ensures o.Thrown? ==> r.text == "错误: " + o.message
    ensures o.Returned? ==> r == o.response
  {
    match o
    case Returned(response) => response
    case Thrown(message) => Response("错误: " + message, true)
  }

  // ---------------------------------------------------------------------------
  // deploy_to_pinme

  const SuccessTitle: string := "✅ 上传成功！"
  const AutoDetectedLine: string := "🔍 自动检测到构建目录"
  const PreviewCaption: string := "🔗 预览地址: "
  const CidCaption: string := "🆔 IPFS CID: "
  const EnsCaption: string := "🌐 ENS 地址: "
  const FullOutputCaption: string := "📋 完整输出:"
  const UploadPathCaption: string := "上传路径: "

  function KindLine(isFile: bool, path: string): string {
    "📁 " + (if isFile then "文件" else "目录") + ": " + path
  }

  /** The guidance shown instead of an error when the CLI is missing. */
  function DeployGuidance(path: string): seq<string> {
    ["⚠️ 未找到 Pinme CLI 工具。", "",
     "请先安装 Pinme CLI:", "  npm install -g pinme", "",
     "安装完成后，您可以:", "1. 使用此工具上传文件或目录", "2. 或直接使用命令行: pinme upload <路径>", "",
     UploadPathCaption + path]
  }

  /** The ENS URL shown for a found CID: the first one after the CID in the
      output of a successful `pinme list` that contains the CID. */
  function EnsFor(cid: string, listed: ExecResult): (r: Option<string>)
    ensures r.Some? ==> listed.Completed? && EnsAfterCid(listed.stdout, cid, r.value)
    ensures listed.Completed? ==> forall u :: EnsAfterCid(listed.stdout, cid, u) ==> r == Some(u)
    ensures r.Some? ==> IsSubstring(cid, listed.stdout)
    ensures r.Some? ==> IsSubstring(r.value, listed.stdout) && Shaped(r.value, EnsUrl)
  {
    match listed
    case Failed(_) => None
    case Completed(stdout, _) => LookupEnsUrl(stdout, cid)
  }

  function EnsLine(ensUrl: Option<string>): seq<string> {
    match ensUrl
    case None => []
    case Some(url) => [EnsCaption + url]
  }

  /** The title, the auto-detection line when the path was detected, and the
      kind of the uploaded path. */
  function HeadLines(target: Target, isFile: bool): seq<string> {
    [SuccessTitle, ""] + (if target.autoDetected then [AutoDetectedLine] else []) + [KindLine(isFile, target.path)]
  }

  function PreviewLine(preview: Option<string>): seq<string> {
    match preview
    case None => []
    case Some(url) => [PreviewCaption + url]
  }

  function CidLines(cid: Option<string>, ensUrl: Option<string>): seq<string> {
    match cid
    case None => []
    case Some(c) => [CidCaption + c] + EnsLine(ensUrl)
  }

  /** The report of a successful upload, line by line, before the raw output,
      given what was extracted: the preview URL, the CID and, for a CID, the
      ENS URL. */
  function ReportLines(target: Target, isFile: bool, preview: Option<string>, cid: Option<string>, ensUrl: Option<string>)
    : seq<string>
  {
    HeadLines(target, isFile) + PreviewLine(preview) + CidLines(cid, ensUrl) + ["", FullOutputCaption]
  }

  /** The report for the output of an upload; the ENS lookup runs `pinme list`
      only when a CID was found. */
  function UploadReport(target: Target, isFile: bool, output: string, run: string -> ExecResult): seq<string> {
    var cid := ExtractCid(output);
    ReportLines(target, isFile, ExtractPreviewUrl(output), cid,
                if cid.Some? then EnsFor(cid.value, run(ListCommand)) else None)
  }

  /** What `handleDeploy` returns or throws, for a `path` argument, a working
      directory, a file system and the results of the commands it runs. */
  function DeployOutcome(pathArg: Option<string>, cwd: string, fs: FileSystem, run: string -> ExecResult): Outcome {
    var target := DeployTarget(pathArg, cwd, fs);
    match CheckTarget(fs, target.path)
    case Failure(message) => Thrown(message)
    case Success(isFile) =>
      match run(UploadCommand(target.path))
      case Failed(e) =>
        if IsCliMissing(e) then Returned(Response(Unlines(DeployGuidance(target.path)), false))
        else Thrown(e.message)
      case Completed(stdout, stderr) =>
        var output := OutputOf(stdout, stderr);
        Returned(Response(Unlines(UploadReport(target, isFile, output, run)) + output, false))
  }

  /** The deploy handler: choose the path, check it, upload it, then build the
      report one line at a time. */
  method HandleDeploy(pathArg: Option<string>, cwd: string, fs: FileSystem, run: string -> ExecResult)
    returns (o: Outcome)
    ensures o == DeployOutcome(pathArg, cwd, fs, run)
  {
    var deployPath: string;
    var autoDetected := false;
    if Truthy(pathArg) {
      deployPath := Resolve(cwd, pathArg.value);
    } else {
      var detected := DetectBuildDirectory(fs, cwd);
      if detected.Some? {
        deployPath := detected.value;
        autoDetected := true;
      } else {
        deployPath := cwd;
      }
    }
    ghost var target := Target(deployPath, autoDetected);
    assert target == DeployTarget(pathArg, cwd, fs);

    var checked := CheckTarget(fs, deployPath);
    if checked.Failure? {
      return Thrown(checked.error);
    }
    var isFile := checked.value;

    var uploaded := run(UploadCommand(deployPath));
    if uploaded.Failed? {
      if IsCliMissing(uploaded.error) {
        return Returned(Response(Unlines(DeployGuidance(deployPath)), false));
      }
      return Thrown(uploaded.error.message);
    }
    var output := OutputOf(uploaded.stdout, uploaded.stderr);

    var lines := WriteReport(Target(deployPath, autoDetected), isFile, output, run);
    o := Returned(Response(Unlines(lines) + output, false));
  }

  /** The report of `handleDeploy` after a successful upload, one line at a
      time: the preview URL and the CID when found, and for a CID the ENS URL
      that a second run of `pinme list` shows for it. */
  method WriteReport(target: Target, isFile: bool, output: string, run: string -> ExecResult)
    returns (lines: seq<string>)
    ensures lines == UploadReport(target, isFile, output, run)
  {
    lines := [SuccessTitle, ""];
    if target.autoDetected {
      lines := lines + [AutoDetectedLine];
    }
    lines := lines + [KindLine(isFile, target.path)];
    ghost var head := lines;
    assert head == HeadLines(target, isFile);
    var previewUrl := ExtractPreviewUrl(output);
    if previewUrl.Some? {
      lines := lines + [PreviewCaption + previewUrl.value];
    }
    ghost var withPreview := lines;
    assert withPreview == head + PreviewLine(previewUrl);
    var cid := ExtractCid(output);
    ghost var ensUrl: Option<string> := None;
    if cid.Some? {
      var cidLines := WriteCidLines(cid.value, run);
      lines := lines + cidLines;
      ensUrl := EnsFor(cid.value, run(ListCommand));
    }
    assert lines == withPreview + CidLines(cid, ensUrl);
    lines := lines + ["", FullOutputCaption];
  }

  /** The CID line, then the ENS line when `pinme list` shows one for the CID;
      a failed listing adds nothing. */
  method WriteCidLines(cid: string, run: string -> ExecResult) returns (lines: seq<string>)
    ensures lines == [CidCaption + cid] + EnsLine(EnsFor(cid, run(ListCommand)))
  {
    lines := [CidCaption + cid];
    var listed := run(ListCommand);
    if listed.Completed? {
      var found := LookupEnsUrl(listed.stdout, cid);
      if found.Some? {
        lines := lines + [EnsCaption + found.value];
      }
    }
  }

  /** The deploy handler never returns an error reply of its own: a bad path
      or a failed upload throws, except that a missing CLI is answered with
      guidance that names the path; a successful upload ends with the raw
      output of the command. */
  lemma DeployOutcomes(pathArg: Option<string>, cwd: string, fs: FileSystem, run: string -> ExecResult)
    ensures var o := DeployOutcome(pathArg, cwd, fs, run);
            var path := DeployTarget(pathArg, cwd, fs).path;
            && (o.Returned? ==> !o.response.isError)
            && (CheckTarget(fs, path).Failure? ==> o.Thrown? && IsSubstring(path, o.message))
            && (CheckTarget(fs, path).Success? && run(UploadCommand(path)).Failed? ==>
                  (IsCliMissing(run(UploadCommand(path)).error) <==> o.Returned?)
                  && (o.Returned? ==> IsSubstring(UploadPathCaption + path, o.response.text))
                  && (o.Thrown? ==> o.message == run(UploadCommand(path)).error.message))
            && (CheckTarget(fs, path).Success? && run(UploadCommand(path)).Completed? ==>
                  var output := OutputOf(run(UploadCommand(path)).stdout, run(UploadCommand(path)).stderr);
                  o.Returned? && |output| <= |o.response.text|
                  && o.response.text[|o.response.text| - |output|..] == output)
  {
    var path := DeployTarget(pathArg, cwd, fs).path;
    var guidance := DeployGuidance(path);
    assert guidance[|guidance| - 1] == UploadPathCaption + path;
    LineInUnlines(guidance, UploadPathCaption + path);
  }

  /** A line that starts like none of the fixed lines of the report is in it
      exactly when it is the preview line or one of the CID lines. */
  lemma InReport(l: string, target: Target, isFile: bool, preview: Option<string>, cid: Option<string>, ensUrl: Option<string>)
    requires |l| > 0 && l[0] !in {'📁', '✅', '🔍', '📋'}
    ensures l in ReportLines(target, isFile, preview, cid, ensUrl) <==> l in PreviewLine(preview) || l in CidLines(cid, ensUrl)
  {
    var kind := KindLine(isFile, target.path);
    assert kind == "📁 " + ((if isFile then "文件" else "目录") + ": " + target.path);
    assert kind[0] == '📁';
    assert l !in HeadLines(target, isFile);
    assert l !in ["", FullOutputCaption];
  }

  /** The auto-detection line is shown exactly when the path was detected. */
  lemma ReportAutoLine(target: Target, isFile: bool, preview: Option<string>, cid: Option<string>, ensUrl: Option<string>)
    ensures AutoDetectedLine in ReportLines(target, isFile, preview, cid, ensUrl) <==> target.autoDetected
  {
    var kind := KindLine(isFile, target.path);
    assert kind == "📁 " + ((if isFile then "文件" else "目录") + ": " + target.path);
    assert kind[0] == '📁';
    assert AutoDetectedLine in HeadLines(target, isFile) <==> target.autoDetected;
    if preview.Some? {
      assert (PreviewCaption + preview.value)[0] == '🔗';
    }
    match cid
    case None =>
    case Some(c) =>
      assert (CidCaption + c)[0] == '🆔';
      match ensUrl
      case None =>
      case Some(url) => assert (EnsCaption + url)[0] == '🌐';
    assert AutoDetectedLine !in PreviewLine(preview) + CidLines(cid, ensUrl) + ["", FullOutputCaption];
  }

  /** `caption + x` and `caption + y` are the same line only for `x == y`. */
  lemma SameCaption(caption: string, x: string, y: string)
    ensures caption + x == caption + y <==> x == y
  {
    if caption + x == caption + y {
      assert (caption + x)[|caption|..] == x;
      assert (caption + y)[|caption|..] == y;
    }
  }

  /** A CID line is shown exactly when a CID was found, and it shows that CID. */
  lemma ReportCidLine(target: Target, isFile: bool, preview: Option<string>, cid: Option<string>, ensUrl: Option<string>, c: string)
    ensures CidCaption + c in ReportLines(target, isFile, preview, cid, ensUrl) <==> cid == Some(c)
  {
    var l := CidCaption + c;
    assert l[0] == '🆔';
    InReport(l, target, isFile, preview, cid, ensUrl);
    if preview.Some? {
      assert (PreviewCaption + preview.value)[0] == '🔗';
    }
    match cid
    case None =>
    case Some(found) =>
      SameCaption(CidCaption, c, found);
      match ensUrl
      case None =>
      case Some(url) => assert (EnsCaption + url)[0] == '🌐';
  }

  /** A preview line is shown exactly when a preview URL was found. */
  lemma ReportPreviewLine(target: Target, isFile: bool, preview: Option<string>, cid: Option<string>, ensUrl: Option<string>, u: string)
    ensures PreviewCaption + u in ReportLines(target, isFile, preview, cid, ensUrl) <==> preview == Some(u)
  {
    var l := PreviewCaption + u;
    assert l[0] == '🔗';
    InReport(l, target, isFile, preview, cid, ensUrl);
    if preview.Some? {
      SameCaption(PreviewCaption, u, preview.value);
    }
    match cid
    case None =>
    case Some(found) =>
      assert (CidCaption + found)[0] == '🆔';
      match ensUrl
      case None =>
      case Some(url) => assert (EnsCaption + url)[0] == '🌐';
  }

  /** An ENS line is shown exactly when a CID was found and an ENS URL was
      found for it. */
  lemma ReportEnsLine(target: Target, isFile: bool, preview: Option<string>, cid: Option<string>, ensUrl: Option<string>, u: string)
    ensures EnsCaption + u in ReportLines(target, isFile, preview, cid, ensUrl) <==> cid.Some? && ensUrl == Some(u)
  {
    var l := EnsCaption + u;
    assert l[0] == '🌐';
    InReport(l, target, isFile, preview, cid, ensUrl);
    if preview.Some? {
      assert (PreviewCaption + preview.value)[0] == '🔗';
    }
    match cid
    case None =>
    case Some(found) =>
      assert (CidCaption + found)[0] == '🆔';
      match ensUrl
      case None =>
      case Some(url) => SameCaption(EnsCaption, u, url);
  }

  /** In the report of an upload, the CID line shows the CID extracted from
      the output, and an ENS line for `u` appears exactly when a CID was
      found and `u` is the first ENS URL from that CID on in the output of a
      successful `pinme list`. */
  lemma UploadReportLines(target: Target, isFile: bool, output: string, run: string -> ExecResult, c: string, u: string)
    ensures CidCaption + c in UploadReport(target, isFile, output, run) <==> ExtractCid(output) == Some(c)
    ensures PreviewCaption + u in UploadReport(target, isFile, output, run) <==> ExtractPreviewUrl(output) == Some(u)
    ensures EnsCaption + u in UploadReport(target, isFile, output, run) <==>
              && ExtractCid(output).Some?
              && run(ListCommand).Completed?
              && EnsAfterCid(run(ListCommand).stdout, ExtractCid(output).value, u)
    ensures EnsCaption + u in UploadReport(target, isFile, output, run) ==>
              IsSubstring(u, run(ListCommand).stdout) && Shaped(u, EnsUrl)
  {
    var cid := ExtractCid(output);
    var preview := ExtractPreviewUrl(output);
    var ensUrl := if cid.Some? then EnsFor(cid.value, run(ListCommand)) else None;
    ReportCidLine(target, isFile, preview, cid, ensUrl, c);
    ReportPreviewLine(target, isFile, preview, cid, ensUrl, u);
    ReportEnsLine(target, isFile, preview, cid, ensUrl, u);
  }

  // ---------------------------------------------------------------------------
  // check_pinme_status

  /** What a HEAD request to a URL gives: a response with its `ok` flag, or a
      failure with a message. */
  datatype ProbeResult = Reached(ok: bool) | FetchFailed(message: string)

  const StatusPrompt: string := "请提供 CID 或 ENS URL 以检查部署状态。"
  const GatewayPrefix: string := "https://ipfs.io/ipfs/"
  const StatusErrorCaption: string := "检查状态时出错: "
  const Reachable: string := "📊 状态: ✅ 可访问"
  const Unreachable: string := "📊 状态: ❌ 不可访问"

  /** The URL the status check requests: the ENS URL when one is given, else
      the gateway URL of the CID, else nothing. */
  function ProbeUrl(cid: Option<string>, ensUrl: Option<string>): string {
    if Truthy(ensUrl) then ensUrl.value
    else if Truthy(cid) then GatewayPrefix + cid.value
    else ""
  }

  function StatusLines(cid: Option<string>, ensUrl: Option<string>, ok: bool): seq<string>
    requires Truthy(cid) || Truthy(ensUrl)
  {
    ["部署状态检查", "",
     if Truthy(ensUrl) then "🌐 ENS URL: " + ensUrl.value else "🆔 IPFS CID: " + cid.value,
     if ok then Reachable else Unreachable]
    + (if Truthy(cid) then ["🔗 IPFS 网关: " + GatewayPrefix + cid.value] else [])
    + (if Truthy(ensUrl) then ["🔗 ENS 地址: " + ensUrl.value] else [])
  }

  /** `handleCheckStatus`: with neither a CID nor an ENS URL, a prompt and no
      request; otherwise the request's outcome. */
  function CheckStatus(cid: Option<string>, ensUrl: Option<string>, probe: string -> ProbeResult): (r: Response)
    ensures !Truthy(cid) && !Truthy(ensUrl) ==> r == Response(StatusPrompt, false)
    ensures Truthy(cid) || Truthy(ensUrl) ==> (r.isError <==> probe(ProbeUrl(cid, ensUrl)).FetchFailed?)
    ensures (Truthy(cid) || Truthy(ensUrl)) && probe(ProbeUrl(cid, ensUrl)).Reached? ==>
              r.text == Unlines(StatusLines(cid, ensUrl, probe(ProbeUrl(cid, ensUrl)).ok))
    ensures (Truthy(cid) || Truthy(ensUrl)) && probe(ProbeUrl(cid, ensUrl)).FetchFailed? ==>
              r.text == StatusErrorCaption + probe(ProbeUrl(cid, ensUrl)).message
  {
    if !Truthy(cid) && !Truthy(ensUrl) then Response(StatusPrompt, false)
    else
      match probe(ProbeUrl(cid, ensUrl))
      case FetchFailed(message) => Response(StatusErrorCaption + message, true)
      case Reached(ok) => Response(Unlines(StatusLines(cid, ensUrl, ok)), false)
  }

  /** The status check requests one URL only, and none when there is nothing
      to check: two probes that agree on that URL give the same reply. The
      URL is the ENS URL whenever one is given, and the gateway URL of the
      CID otherwise. */
  lemma CheckStatusProbesOneUrl(cid: Option<string>, ensUrl: Option<string>, p: string -> ProbeResult, q: string -> ProbeResult)
    requires (!Truthy(cid) && !Truthy(ensUrl)) || p(ProbeUrl(cid, ensUrl)) == q(ProbeUrl(cid, ensUrl))
    ensures CheckStatus(cid, ensUrl, p) == CheckStatus(cid, ensUrl, q)
    ensures Truthy(ensUrl) ==> ProbeUrl(cid, ensUrl) == ensUrl.value
    ensures !Truthy(ensUrl) && Truthy(cid) ==>
              ProbeUrl(cid, ensUrl)[..|GatewayPrefix|] == GatewayPrefix && ProbeUrl(cid, ensUrl)[|GatewayPrefix|..] == cid.value
  {
  }

  /** The status line of a report says "reachable" exactly when the response
      was `ok`, and "not reachable" exactly when it was not. */
  lemma StatusVerdict(cid: Option<string>, ensUrl: Option<string>, ok: bool)
    requires Truthy(cid) || Truthy(ensUrl)
    ensures Reachable in StatusLines(cid, ensUrl, ok) <==> ok
    ensures Unreachable in StatusLines(cid, ensUrl, ok) <==> !ok
  {
    var lines := StatusLines(cid, ensUrl, ok);
    assert Reachable[0] == Unreachable[0] == '📊' && Reachable[6] != Unreachable[6];
    assert lines[0][0] != '📊' && lines[2][0] != '📊';
    if Truthy(cid) {
      assert (("🔗 IPFS 网关: " + GatewayPrefix) + cid.value)[0] != Reachable[0];
    }
    if Truthy(ensUrl) {
      assert ("🔗 ENS 地址: " + ensUrl.value)[0] != Reachable[0];
    }
  }

  /** A reachable target's report shows the gateway line exactly when a CID
      was given and the ENS line exactly when an ENS URL was given. */
  lemma StatusReportLines(cid: Option<string>, ensUrl: Option<string>, ok: bool)
    requires Truthy(cid) || Truthy(ensUrl)
    ensures forall c :: "🔗 IPFS 网关: " + GatewayPrefix + c in StatusLines(cid, ensUrl, ok) <==> Truthy(cid) && cid.value == c
    ensures forall e :: "🔗 ENS 地址: " + e in StatusLines(cid, ensUrl, ok) <==> Truthy(ensUrl) && ensUrl.value == e
  {
    var lines := StatusLines(cid, ensUrl, ok);
    var gateway := "🔗 IPFS 网关: " + GatewayPrefix;
    var ens := "🔗 ENS 地址: ";
    forall c ensures gateway + c in lines <==> Truthy(cid) && cid.value == c {
      var l := gateway + c;
      assert l[2] == 'I';
      assert l[..|gateway|] == gateway;
      if Truthy(cid) && l == gateway + cid.value {
        assert l[|gateway|..] == c && (gateway + cid.value)[|gateway|..] == cid.value;
      }
      if Truthy(ensUrl) {
        assert (ens + ensUrl.value)[2] == 'E';
      }
      assert l[0] != lines[0][0] && l[0] != lines[2][0] && l[0] != lines[3][0];
    }
    forall e ensures ens + e in lines <==> Truthy(ensUrl) && ensUrl.value == e {
      var l := ens + e;
      assert l[2] == 'E';
      if Truthy(ensUrl) && l == ens + ensUrl.value {
        assert l[|ens|..] == e && (ens + ensUrl.value)[|ens|..] == ensUrl.value;
      }
      if Truthy(cid) {
        assert (gateway + cid.value)[2] == 'I';
      }
      assert l[0] != lines[0][0] && l[0] != lines[2][0] && l[0] != lines[3][0];
    }
  }

  // ---------------------------------------------------------------------------
  // list_deployments

  function ListGuidance(): seq<string> {
    ["⚠️ 未找到 Pinme CLI 工具。", "",
     "请先安装 Pinme CLI:", "  npm install -g pinme", "",
     "然后使用命令: pinme list"]
  }

  /** The reply of `handleListDeployments` to one run of `pinme list`. */
  function ListReply(listed: ExecResult): Response {
    match listed
    case Failed(e) =>
      if IsCliMissing(e) then Response(Unlines(ListGuidance()), false)
      else Response("获取部署列表时出错: " + e.message, true)
    case Completed(stdout, stderr) =>
      var output := OutputOf(stdout, stderr);
      Response(Unlines(ListingLines(Records(Sections(output)), ParseTotals(output))), false)
  }

  /** The list handler: run `pinme list`, cut the output into sections, parse
      them, read the totals and format the reply. */
  method HandleListDeployments(run: string -> ExecResult) returns (r: Response)
    ensures r == ListReply(run(ListCommand))
  {
    var listed := run(ListCommand);
    if listed.Failed? {
      if IsCliMissing(listed.error) {
        return Response(Unlines(ListGuidance()), false);
      }
      return Response("获取部署列表时出错: " + listed.error.message, true);
    }
    var output := OutputOf(listed.stdout, listed.stderr);
    var deployments := ParseDeployments(Sections(output));
    var lines := FormatListing(deployments, ParseTotals(output));
    r := Response(Unlines(lines), false);
  }

  /** Only a failure other than a missing CLI is an error reply; a missing
      CLI is answered with guidance, and a listing without records says so. */
  lemma ListReplyOutcomes(listed: ExecResult)
    ensures ListReply(listed).isError <==> listed.Failed? && !IsCliMissing(listed.error)
    ensures listed.Failed? && IsCliMissing(listed.error) ==> IsSubstring(ListCommand, ListReply(listed).text)
    ensures listed.Completed? ==>
              var output := OutputOf(listed.stdout, listed.stderr);
              (Records(Sections(output)) == [] ==> IsSubstring(EmptyNote, ListReply(listed).text))
  {
    var guidance := ListGuidance();
    var last := guidance[|guidance| - 1];
    LineInUnlines(guidance, last);
    assert HasAt(last, |last| - |ListCommand|, ListCommand);
    SubstringTransitive(ListCommand, last, Unlines(guidance));
    if listed.Completed? {
      var output := OutputOf(listed.stdout, listed.stderr);
      var ds := Records(Sections(output));
      var t := ParseTotals(output);
      if ds == [] {
        ListingEmptyNote(ds, t);
        LineInUnlines(ListingLines(ds, t), EmptyNote);
      }
    }
  }

  // ---------------------------------------------------------------------------
  // Dispatch

  /** The arguments a tool call may carry. */
  datatype Arguments = Arguments(path: Option<string>, cid: Option<string>, ensUrl: Option<string>)

  /** The `CallTool` handler: run the named tool, and turn whatever it throws,
      an unknown tool name included, into an error reply. */
  method CallTool(name: string, args: Arguments, cwd: string, fs: FileSystem,
                  run: string -> ExecResult, probe: string -> ProbeResult)
    returns (r: Response)
    ensures name == "deploy_to_pinme" ==> r == Respond(DeployOutcome(args.path, cwd, fs, run))
    ensures name == "check_pinme_status" ==> r == CheckStatus(args.cid, args.ensUrl, probe)
    ensures name == "list_deployments" ==> r == ListReply(run(ListCommand))
    ensures name !in {"deploy_to_pinme", "check_pinme_status", "list_deployments"} ==>
              r == Response("错误: 未知的工具: " + name, true)
  {
    var o: Outcome;
    if name == "deploy_to_pinme" {
      o := HandleDeploy(args.path, cwd, fs, run);
    } else if name == "check_pinme_status" {
      o := Returned(CheckStatus(args.cid, args.ensUrl, probe));
    } else if name == "list_deployments" {
      var listReply := HandleListDeployments(run);
      o := Returned(listReply);
    } else {
      o := Thrown("未知的工具: " + name);
    }
    r := Respond(o);
  }

  /** A deploy call ends in an error reply exactly when the handler threw:
      a path that fails its checks, or an upload failure other than a
      missing CLI. */
  lemma DeployCallIsError(pathArg: Option<string>, cwd: string, fs: FileSystem, run: string -> ExecResult)
    ensures var path := DeployTarget(pathArg, cwd, fs).path;
            Respond(DeployOutcome(pathArg, cwd, fs, run)).isError <==>
              CheckTarget(fs, path).Failure?
              || (run(UploadCommand(path)).Failed? && !IsCliMissing(run(UploadCommand(path)).error))
  {
    DeployOutcomes(pathArg, cwd, fs, run);
  }
}
