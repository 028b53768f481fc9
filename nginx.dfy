/** The nginx configuration generator: command-line argument lookup, the
    text of one API's configuration file, and the exit-code guards of the
    tool. Reading the JSON file and writing the output files are not
    modelled: the tool's run takes whether the file exists and what it
    deserialised to, and returns the files it would write. */
module NginxGen {
  import opened Wrappers
  import opened Text

  datatype UpstreamConfig = UpstreamConfig(ServiceName: string, Port: int)
  datatype RateLimitConfig = RateLimitConfig(Enabled: bool, RequestsPerMinute: int)
  datatype TimeoutConfig = TimeoutConfig(ConnectSeconds: int, SendSeconds: int, ReadSeconds: int)
  datatype AuthConfig = AuthConfig(ForwardHeaders: seq<string>)
  datatype ApiConfig = ApiConfig(
    Name: string,
    PathPrefix: string,
    Upstream: UpstreamConfig,
    RateLimit: RateLimitConfig,
    Timeouts: TimeoutConfig,
    Methods: seq<string>,
    Auth: AuthConfig)
  datatype NginxConfigRoot = NginxConfigRoot(Apis: seq<ApiConfig>)

  /** The argument is one of the two spellings of the flag, ignoring case. */
  predicate IsFlag(arg: string, longName: string, shortName: string) {
    EqualsIgnoreCase(arg, longName) || EqualsIgnoreCase(arg, shortName)
  }

  /** Index `i` holds the first flag that is followed by a value. */
  predicate FirstFlagWithValue(args: seq<string>, longName: string, shortName: string, i: int) {
    && 0 <= i < |args| - 1
    && IsFlag(args[i], longName, shortName)
    && forall j :: 0 <= j < i ==> !IsFlag(args[j], longName, shortName)
  }

  /** `GetArgumentValue`: the argument after the first occurrence of the flag
      that has a successor; a flag in last position is skipped. */
  method GetArgumentValue(args: seq<string>, longName: string, shortName: string) returns (r: Option<string>)
    ensures r.None? <==> forall i :: 0 <= i < |args| - 1 ==> !IsFlag(args[i], longName, shortName)
    ensures r.Some? ==> exists i :: FirstFlagWithValue(args, longName, shortName, i) && r.value == args[i + 1]
  {
    var i := 0;
    while i < |args|
      invariant 0 <= i <= |args|
      invariant forall j :: 0 <= j < i && j < |args| - 1 ==> !IsFlag(args[j], longName, shortName)
    {
      if EqualsIgnoreCase(args[i], longName) || EqualsIgnoreCase(args[i], shortName) {
        if i + 1 < |args| {
          assert FirstFlagWithValue(args, longName, shortName, i);
          return Some(args[i + 1]);
        }
      }
      i := i + 1;
    }
    return None;
  }

  /** `Environment.NewLine` on the Unix hosts the tool targets. */
  const NewLine := "\n"

  /** The text of a sequence of `AppendLine` calls. */
  function JoinLines(lines: seq<string>): string
    decreases |lines|
  {
    if lines == [] then "" else JoinLines(lines[..|lines| - 1]) + lines[|lines| - 1] + NewLine
  }

  function DashToUnderscore(c: char): char {
    if c == '-' then '_' else c
  }

  /** `header.ToLowerInvariant().Replace("-", "_")`. */
  function HeaderVariable(header: string): string {
    seq(|header|, i requires 0 <= i < |header| => DashToUnderscore(FoldChar(header[i])))
  }

  function HeaderLine(header: string): string {
    "        proxy_set_header   " + header + " $http_" + HeaderVariable(header) + ";"
  }

  function HeaderLines(headers: seq<string>): (r: seq<string>)
    ensures |r| == |headers|
    ensures forall i :: 0 <= i < |headers| ==> r[i] == HeaderLine(headers[i])
  {
    seq(|headers|, i requires 0 <= i < |headers| => HeaderLine(headers[i]))
  }

  lemma HeaderLinesSnoc(headers: seq<string>, i: int)
    requires 0 <= i < |headers|
    ensures HeaderLines(headers[..i + 1]) == HeaderLines(headers[..i]) + [HeaderLine(headers[i])]
  {
  }

  function UpstreamName(api: ApiConfig): string {
    ToLower(api.Name) + "_upstream"
  }

  function RateZone(api: ApiConfig): string {
    ToLower(api.Name) + "_ratelimit"
  }

  /** The lines before the optional rate-limit zone. */
  function UpstreamBlock(api: ApiConfig): seq<string> {
    ["upstream " + UpstreamName(api) + " {",
     "    server " + api.Upstream.ServiceName + ":" + DecimalString(api.Upstream.Port) + ";",
     "}\n"]
  }

  function ZoneLines(api: ApiConfig): seq<string> {
    if api.RateLimit.Enabled then
      ["limit_req_zone $binary_remote_addr zone=" + RateZone(api) + ":10m rate="
       + DecimalString(api.RateLimit.RequestsPerMinute) + "r/m;\n"]
    else []
  }

  /** The server block up to the forwarded headers. */
  function ServerHead(api: ApiConfig): seq<string> {
    ServerPrologue + LocationLines(api) + StandardHeaders + TimeoutLines(api)
  }

  const ServerPrologue: seq<string> := ["server {", "    listen 80;", "    server_name gateway.local;\n"]

  function LocationLines(api: ApiConfig): seq<string> {
    ["    location " + api.PathPrefix + "/ {",
     "        proxy_pass         http://" + UpstreamName(api) + ";"]
  }

  /** The headers every location forwards. */
  const StandardHeaders: seq<string> :=
    ["        proxy_set_header   Host $host;",
     "        proxy_set_header   X-Real-IP $remote_addr;",
     "        proxy_set_header   X-Forwarded-For $proxy_add_x_forwarded_for;",
     "        proxy_set_header   X-Forwarded-Proto $scheme;",
     "        proxy_set_header   X-Correlation-Id $request_id;\n"]

  function TimeoutLines(api: ApiConfig): seq<string> {
    ["        proxy_connect_timeout   " + DecimalString(api.Timeouts.ConnectSeconds) + "s;",
     "        proxy_send_timeout      " + DecimalString(api.Timeouts.SendSeconds) + "s;",
     "        proxy_read_timeout      " + DecimalString(api.Timeouts.ReadSeconds) + "s;\n"]
  }

  /** One line per forwarded header, then a blank line; nothing without headers. */
  function ForwardLines(api: ApiConfig): seq<string> {
    if |api.Auth.ForwardHeaders| > 0 then HeaderLines(api.Auth.ForwardHeaders) + [""] else []
  }

  function LimitLines(api: ApiConfig): seq<string> {
    if api.RateLimit.Enabled then ["        limit_req zone=" + RateZone(api) + " burst=10 nodelay;"] else []
  }

  const ClosingLines: seq<string> := ["    }", "}\n"]

  /** The blocks of the file, in order. */
  function Blocks(api: ApiConfig): seq<seq<string>> {
    [UpstreamBlock(api), ZoneLines(api), ServerHead(api), ForwardLines(api), LimitLines(api) + ClosingLines]
  }

  function Flatten<T>(blocks: seq<seq<T>>): seq<T>
    decreases |blocks|
  {
    if blocks == [] then [] else blocks[0] + Flatten(blocks[1..])
  }

  /** The `AppendLine` arguments of `Render`, in order. */
  function RenderLines(api: ApiConfig): seq<string> {
    Flatten(Blocks(api))
  }

  lemma FlattenFive<T>(a: seq<T>, b: seq<T>, c: seq<T>, d: seq<T>, e: seq<T>)
    ensures Flatten([a, b, c, d, e]) == a + b + c + d + e
  {
    var blocks := [a, b, c, d, e];
    var b1, b2, b3, b4 := [b, c, d, e], [c, d, e], [d, e], [e];
    assert blocks[1..] == b1 && b1[1..] == b2 && b2[1..] == b3 && b3[1..] == b4 && b4[1..] == [];
    assert Flatten(b4) == e;
    assert Flatten(b3) == d + e;
    assert Flatten(b2) == c + (d + e);
    assert Flatten(b1) == b + (c + (d + e));
    assert Flatten(blocks) == a + (b + (c + (d + e)));
  }

  /** The file is its blocks one after the other. */
  lemma RenderLinesBlocks(api: ApiConfig)
    ensures RenderLines(api) == UpstreamBlock(api) + ZoneLines(api) + ServerHead(api) + ForwardLines(api) + (LimitLines(api) + ClosingLines)
  {
    FlattenFive(UpstreamBlock(api), ZoneLines(api), ServerHead(api), ForwardLines(api), LimitLines(api) + ClosingLines);
  }

  /** `Render`: the configuration text is built line by line, block after
      block in the order of the source. */
  method Render(api: ApiConfig) returns (text: string)
    ensures text == RenderText(api)
  {
    var nameSlug := ToLower(api.Name);
    var upstreamName := nameSlug + "_upstream";
    var rateZone := nameSlug + "_ratelimit";
    var builder := "";
    ghost var lines: seq<string> := [];
    builder, lines := AppendUpstream(builder, lines, api, upstreamName);
    ghost var upstream := lines;
    builder, lines := AppendZone(builder, lines, api, rateZone);
    ghost var zone := lines;
    builder, lines := AppendPrologue(builder, lines);
    ghost var prologue := lines;
    builder, lines := AppendLocation(builder, lines, api, upstreamName);
    ghost var location := lines;
    builder, lines := AppendStandardHeaders(builder, lines);
    ghost var standard := lines;
    builder, lines := AppendTimeouts(builder, lines, api);
    ghost var timeouts := lines;
    builder, lines := AppendForwardHeaders(builder, lines, api.Auth.ForwardHeaders);
    ghost var forward := lines;
    builder, lines := AppendClosing(builder, lines, api, rateZone);
    Assemble(upstream, zone, prologue, location, standard, timeouts, forward, lines,
             UpstreamBlock(api), ZoneLines(api), ServerPrologue, LocationLines(api), StandardHeaders,
             TimeoutLines(api), ForwardLines(api), LimitLines(api) + ClosingLines);
    RenderLinesBlocks(api);
    text := builder;
  }

  method AppendUpstream(builder: string, ghost lines: seq<string>, api: ApiConfig, upstreamName: string)
    returns (extended: string, ghost grown: seq<string>)
    requires builder == JoinLines(lines) && upstreamName == UpstreamName(api)
    ensures grown == lines + UpstreamBlock(api) && extended == JoinLines(grown)
  {
    extended, grown := AppendLine(builder, lines, "upstream " + upstreamName + " {");
    extended, grown := AppendLine(extended, grown, "    server " + api.Upstream.ServiceName + ":" + DecimalString(api.Upstream.Port) + ";");
    extended, grown := AppendLine(extended, grown, "}\n");
  }

  method AppendZone(builder: string, ghost lines: seq<string>, api: ApiConfig, rateZone: string)
    returns (extended: string, ghost grown: seq<string>)
    requires builder == JoinLines(lines) && rateZone == RateZone(api)
    ensures grown == lines + ZoneLines(api) && extended == JoinLines(grown)
  {
    extended, grown := builder, lines;
    if api.RateLimit.Enabled {
      extended, grown := AppendLine(extended, grown, "limit_req_zone $binary_remote_addr zone=" + rateZone + ":10m rate="
                                    + DecimalString(api.RateLimit.RequestsPerMinute) + "r/m;\n");
    }
  }

  method AppendPrologue(builder: string, ghost lines: seq<string>) returns (extended: string, ghost grown: seq<string>)
    requires builder == JoinLines(lines)
    ensures grown == lines + ServerPrologue && extended == JoinLines(grown)
  {
    extended, grown := AppendLine(builder, lines, "server {");
    extended, grown := AppendLine(extended, grown, "    listen 80;");
    extended, grown := AppendLine(extended, grown, "    server_name gateway.local;\n");
  }

  method AppendLocation(builder: string, ghost lines: seq<string>, api: ApiConfig, upstreamName: string)
    returns (extended: string, ghost grown: seq<string>)
    requires builder == JoinLines(lines) && upstreamName == UpstreamName(api)
    ensures grown == lines + LocationLines(api) && extended == JoinLines(grown)
  {
    extended, grown := AppendLine(builder, lines, "    location " + api.PathPrefix + "/ {");
    extended, grown := AppendLine(extended, grown, "        proxy_pass         http://" + upstreamName + ";");
  }

  method AppendStandardHeaders(builder: string, ghost lines: seq<string>) returns (extended: string, ghost grown: seq<string>)
    requires builder == JoinLines(lines)
    ensures grown == lines + StandardHeaders && extended == JoinLines(grown)
  {
    extended, grown := AppendLine(builder, lines, "        proxy_set_header   Host $host;");
    extended, grown := AppendLine(extended, grown, "        proxy_set_header   X-Real-IP $remote_addr;");
    extended, grown := AppendLine(extended, grown, "        proxy_set_header   X-Forwarded-For $proxy_add_x_forwarded_for;");
    extended, grown := AppendLine(extended, grown, "        proxy_set_header   X-Forwarded-Proto $scheme;");
    extended, grown := AppendLine(extended, grown, "        proxy_set_header   X-Correlation-Id $request_id;\n");
  }

  method AppendTimeouts(builder: string, ghost lines: seq<string>, api: ApiConfig) returns (extended: string, ghost grown: seq<string>)
    requires builder == JoinLines(lines)
    ensures grown == lines + TimeoutLines(api) && extended == JoinLines(grown)
  {
    extended, grown := AppendLine(builder, lines, "        proxy_connect_timeout   " + DecimalString(api.Timeouts.ConnectSeconds) + "s;");
    extended, grown := AppendLine(extended, grown, "        proxy_send_timeout      " + DecimalString(api.Timeouts.SendSeconds) + "s;");
    extended, grown := AppendLine(extended, grown, "        proxy_read_timeout      " + DecimalString(api.Timeouts.ReadSeconds) + "s;\n");
  }

  /** The loop over the forwarded headers, and the blank line after them. */
  method AppendForwardHeaders(builder: string, ghost lines: seq<string>, headers: seq<string>)
    returns (extended: string, ghost grown: seq<string>)
    requires builder == JoinLines(lines)
    ensures grown == lines + (if |headers| > 0 then HeaderLines(headers) + [""] else []) && extended == JoinLines(grown)
  {
    extended, grown := builder, lines;
    if |headers| > 0 {
      for i := 0 to |headers|
        invariant grown == lines + HeaderLines(headers[..i])
        invariant extended == JoinLines(grown)
      {
        var varName := HeaderVariable(headers[i]);
        extended, grown := AppendLine(extended, grown, "        proxy_set_header   " + headers[i] + " $http_" + varName + ";");
        HeaderLinesSnoc(headers, i);
      }
      assert headers[..|headers|] == headers;
      extended, grown := AppendLine(extended, grown, "");
    }
  }

  /** The optional `limit_req` line and the closing braces. */
  method AppendClosing(builder: string, ghost lines: seq<string>, api: ApiConfig, rateZone: string)
    returns (extended: string, ghost grown: seq<string>)
    requires builder == JoinLines(lines) && rateZone == RateZone(api)
    ensures grown == lines + (LimitLines(api) + ClosingLines) && extended == JoinLines(grown)
  {
    extended, grown := builder, lines;
    if api.RateLimit.Enabled {
      extended, grown := AppendLine(extended, grown, "        limit_req zone=" + rateZone + " burst=10 nodelay;");
    }
    extended, grown := AppendLine(extended, grown, "    }");
    extended, grown := AppendLine(extended, grown, "}\n");
  }

  /** The blocks of `RenderLines`, appended one after the other. */
  lemma Assemble<T>(upstream: seq<T>, zone: seq<T>, prologue: seq<T>, location: seq<T>, standard: seq<T>,
                    timeouts: seq<T>, forward: seq<T>, all: seq<T>,
                    a: seq<T>, b: seq<T>, c: seq<T>, d: seq<T>, e: seq<T>, f: seq<T>, g: seq<T>, h: seq<T>)
    requires upstream == a && zone == upstream + b && prologue == zone + c && location == prologue + d
    requires standard == location + e && timeouts == standard + f && forward == timeouts + g && all == forward + h
    ensures all == a + b + (c + d + e + f) + g + h
  {
  }

  /** `StringBuilder.AppendLine`, with the lines appended so far. */
  method AppendLine(builder: string, ghost lines: seq<string>, line: string) returns (extended: string, ghost grown: seq<string>)
    requires builder == JoinLines(lines)
    ensures grown == lines + [line]
    ensures extended == JoinLines(grown)
  {
    extended := builder + line + NewLine;
    grown := lines + [line];
    assert grown[..|grown| - 1] == lines;
  }

  /** The text of the configuration file of an API. */
  function RenderText(api: ApiConfig): string {
    JoinLines(RenderLines(api))
  }

  /** The name of the file written for an API. */
  function ConfigFileName(api: ApiConfig): string {
    ToLower(api.Name) + ".conf"
  }

  /** A file the tool writes: its name within the output directory and its text. */
  datatype OutputFile = OutputFile(name: string, content: string)

  /** The file written for an API. */
  function FileFor(api: ApiConfig): OutputFile {
    OutputFile(ConfigFileName(api), RenderText(api))
  }

  /** The files written for a list of APIs: the sequence of writes, one per
      API in order. Two APIs whose names lower-case to the same text give two
      writes to the same file name, and the later one replaces the earlier. */
  function FilesFor(apis: seq<ApiConfig>): (r: seq<OutputFile>)
    decreases |apis|
  {
    if apis == [] then [] else FilesFor(apis[..|apis| - 1]) + [FileFor(apis[|apis| - 1])]
  }

  /** One file per API, the i-th named after and rendered from the i-th API. */
  lemma {:induction false} FilesForEach(apis: seq<ApiConfig>)
    ensures |FilesFor(apis)| == |apis|
    ensures forall i :: 0 <= i < |apis| ==> FilesFor(apis)[i] == FileFor(apis[i])
    decreases |apis|
  {
    if apis != [] {
      var init := apis[..|apis| - 1];
      FilesForEach(init);
      forall i | 0 <= i < |apis| ensures FilesFor(apis)[i] == FileFor(apis[i]) {
        if i < |apis| - 1 {
          assert FilesFor(apis)[i] == FilesFor(init)[i];
          assert init[i] == apis[i];
        }
      }
    }
  }

  /** The body of the tool once the arguments are read and the file has been
      deserialised without an exception and with every member present: a
      missing config file or a configuration that is `null` or lists no API
      ends the run with exit code 1 and writes nothing; otherwise one file per
      API, in order, and exit code 0. */
  method Generate(configExists: bool, config: Option<NginxConfigRoot>) returns (exitCode: int, files: seq<OutputFile>)
    ensures exitCode == 0 || exitCode == 1
    ensures exitCode == 1 <==> !configExists || config.None? || |config.value.Apis| == 0
    ensures exitCode == 1 ==> files == []
    ensures exitCode == 0 ==> files == FilesFor(config.value.Apis)
  {
    if !configExists {
      return 1, [];
    }
    if config.None? || |config.value.Apis| == 0 {
      return 1, [];
    }
    var apis := config.value.Apis;
    files := [];
    for i := 0 to |apis|
      invariant files == FilesFor(apis[..i])
    {
      var content := Render(apis[i]);
      var fileName := ToLower(apis[i].Name) + ".conf";
      assert apis[..i + 1][..i] == apis[..i];
      files := files + [OutputFile(fileName, content)];
    }
    assert apis[..|apis|] == apis;
    exitCode := 0;
  }

  /** A line differs from a prefix at some position of the prefix. */
  lemma DiffersAt(line: string, prefix: string, k: nat)
    requires k < |prefix| && (k >= |line| || line[k] != prefix[k])
    ensures !StartsWith(line, prefix)
  {
    if |prefix| <= |line| {
      assert line[..|prefix|][k] == line[k];
    }
  }

  const ZoneDirective := "limit_req_zone "
  const LimitDirective := "        limit_req "

  /** A line of the file is not the zone directive: it starts with a character other than 'l'. */
  predicate NotZoneLine(line: string) {
    |line| == 0 || line[0] != 'l'
  }

  /** A line of the file is not a `limit_req` directive: its ninth character is not 'l'. */
  predicate NotLimitLine(line: string) {
    |line| <= 8 || line[8] != 'l'
  }

  predicate NoRateLines(block: seq<string>) {
    forall i :: 0 <= i < |block| ==> NotZoneLine(block[i]) && NotLimitLine(block[i])
  }

  lemma HeaderBlocksHaveNoRateLines(api: ApiConfig)
    ensures NoRateLines(StandardHeaders) && NoRateLines(ForwardLines(api))
  {
    var hs := api.Auth.ForwardHeaders;
    forall i | 0 <= i < |hs| ensures NotZoneLine(HeaderLine(hs[i])) && NotLimitLine(HeaderLine(hs[i])) {
      assert HeaderLine(hs[i])[0] == ' ' && HeaderLine(hs[i])[8] == 'p';
    }
    var f := ForwardLines(api);
    forall i | 0 <= i < |f| ensures NotZoneLine(f[i]) && NotLimitLine(f[i]) {
      if i < |hs| {
        assert f[i] == HeaderLine(hs[i]);
      }
    }
    StandardHeadersHaveNoRateLines();
  }

  lemma StandardHeadersHaveNoRateLines()
    ensures NoRateLines(StandardHeaders)
  {
    var st := StandardHeaders;
    assert st[0][0] == ' ' && st[0][8] == 'p' && st[1][0] == ' ' && st[1][8] == 'p';
    assert st[2][0] == ' ' && st[2][8] == 'p' && st[3][0] == ' ' && st[3][8] == 'p';
    assert st[4][0] == ' ' && st[4][8] == 'p';
  }

  lemma FixedBlocksHaveNoRateLines(api: ApiConfig)
    ensures NoRateLines(UpstreamBlock(api)) && NoRateLines(ServerPrologue) && NoRateLines(LocationLines(api))
    ensures NoRateLines(TimeoutLines(api)) && NoRateLines(ClosingLines)
  {
    UpstreamHasNoRateLines(api);
    LocationHasNoRateLines(api);
    TimeoutsHaveNoRateLines(api);
    assert ServerPrologue[0][0] == 's' && ServerPrologue[1][8] == 'e' && ServerPrologue[2][8] == 'e';
  }

  lemma UpstreamHasNoRateLines(api: ApiConfig)
    ensures NoRateLines(UpstreamBlock(api))
  {
    var u := UpstreamBlock(api);
    assert u[0][0] == 'u' && u[0][8] == ' ' && u[1][0] == ' ' && u[1][8] == 'e';
  }

  lemma LocationHasNoRateLines(api: ApiConfig)
    ensures NoRateLines(LocationLines(api))
  {
    var l := LocationLines(api);
    assert l[0][0] == ' ' && l[0][8] == 't' && l[1][0] == ' ' && l[1][8] == 'p';
  }

  lemma TimeoutsHaveNoRateLines(api: ApiConfig)
    ensures NoRateLines(TimeoutLines(api))
  {
    var t := TimeoutLines(api);
    assert t[0][8] == 'p' && t[1][8] == 'p' && t[2][8] == 'p';
    assert t[0][0] == ' ' && t[1][0] == ' ' && t[2][0] == ' ';
  }

  lemma NoRateLinesConcat(a: seq<string>, b: seq<string>)
    requires NoRateLines(a) && NoRateLines(b)
    ensures NoRateLines(a + b)
  {
    forall i | 0 <= i < |a + b| ensures NotZoneLine((a + b)[i]) && NotLimitLine((a + b)[i]) {
      if i >= |a| {
        assert (a + b)[i] == b[i - |a|];
      }
    }
  }

  predicate HasLineStarting(lines: seq<string>, prefix: string) {
    exists i :: 0 <= i < |lines| && StartsWith(lines[i], prefix)
  }

  /** Among the appended lines, a rate-limit zone line and a `limit_req` line
      occur exactly when rate limiting is enabled for the API. (A configured
      name, path or header holding a line break could still start a line of
      the written text with either directive; the lemma is about the lines
      as appended.) */
  lemma RateLimitDirectives(api: ApiConfig)
    ensures HasLineStarting(RenderLines(api), ZoneDirective) <==> api.RateLimit.Enabled
    ensures HasLineStarting(RenderLines(api), LimitDirective) <==> api.RateLimit.Enabled
  {
    if api.RateLimit.Enabled {
      RateLimitDirectivesPresent(api);
    } else {
      RateLimitDirectivesAbsent(api);
    }
  }

  lemma RateLimitDirectivesPresent(api: ApiConfig)
    requires api.RateLimit.Enabled
    ensures HasLineStarting(RenderLines(api), ZoneDirective) && HasLineStarting(RenderLines(api), LimitDirective)
  {
    RenderLinesBlocks(api);
    var lines := RenderLines(api);
    var head := UpstreamBlock(api) + ZoneLines(api) + ServerHead(api) + ForwardLines(api);
    assert lines == head + LimitLines(api) + ClosingLines;
    assert lines[3] == ZoneLines(api)[0];
    assert StartsWith(lines[3], ZoneDirective);
    var k := |head|;
    assert lines[k] == LimitLines(api)[0];
    assert StartsWith(lines[k], LimitDirective);
  }

  lemma RateLimitDirectivesAbsent(api: ApiConfig)
    requires !api.RateLimit.Enabled
    ensures !HasLineStarting(RenderLines(api), ZoneDirective) && !HasLineStarting(RenderLines(api), LimitDirective)
  {
    RenderLinesBlocks(api);
    FixedBlocksHaveNoRateLines(api);
    HeaderBlocksHaveNoRateLines(api);
    var u, z, sh, f := UpstreamBlock(api), ZoneLines(api), ServerHead(api), ForwardLines(api);
    NoRateLinesConcat(u, z);
    NoRateLinesConcat(ServerPrologue, LocationLines(api));
    NoRateLinesConcat(ServerPrologue + LocationLines(api), StandardHeaders);
    NoRateLinesConcat(ServerPrologue + LocationLines(api) + StandardHeaders, TimeoutLines(api));
    NoRateLinesConcat(u + z, sh);
    NoRateLinesConcat(u + z + sh, f);
    NoRateLinesConcat(u + z + sh + f, LimitLines(api) + ClosingLines);
    var lines := RenderLines(api);
    forall i | 0 <= i < |lines| ensures !StartsWith(lines[i], ZoneDirective) && !StartsWith(lines[i], LimitDirective) {
      DiffersAt(lines[i], ZoneDirective, 0);
      DiffersAt(lines[i], LimitDirective, 8);
    }
  }

  /** A forwarded header's variable keeps the header's length, contains no
      dash and no capital letter, and agrees with the lower-cased header
      everywhere but at the dashes. */
  lemma HeaderVariableShape(header: string)
    ensures |HeaderVariable(header)| == |header|
    ensures forall i :: 0 <= i < |header| ==> HeaderVariable(header)[i] != '-' && !('A' <= HeaderVariable(header)[i] <= 'Z')
    ensures forall i :: 0 <= i < |header| && header[i] != '-' ==> HeaderVariable(header)[i] == ToLower(header)[i]
  {
  }

  /** Every forwarded header is passed on from its `$http_` variable. */
  lemma ForwardedHeadersRendered(api: ApiConfig)
    ensures forall h | h in api.Auth.ForwardHeaders :: HeaderLine(h) in RenderLines(api)
  {
    RenderLinesBlocks(api);
    var hs := api.Auth.ForwardHeaders;
    var u, z, sh, f, tail := UpstreamBlock(api), ZoneLines(api), ServerHead(api), ForwardLines(api), LimitLines(api) + ClosingLines;
    forall h | h in hs ensures HeaderLine(h) in RenderLines(api) {
      var i :| 0 <= i < |hs| && hs[i] == h;
      assert HeaderLines(hs)[i] == HeaderLine(h);
      assert f == HeaderLines(hs) + [""];
      InLeft(HeaderLines(hs), [""], HeaderLine(h));
      InRight(u + z + sh, f, HeaderLine(h));
      InLeft(u + z + sh + f, tail, HeaderLine(h));
    }
  }

  lemma InLeft<T>(a: seq<T>, b: seq<T>, x: T)
    requires x in a
    ensures x in a + b
  {
    var i :| 0 <= i < |a| && a[i] == x;
    assert (a + b)[i] == x;
  }

  lemma InRight<T>(a: seq<T>, b: seq<T>, x: T)
    requires x in b
    ensures x in a + b
  {
    var i :| 0 <= i < |b| && b[i] == x;
    assert (a + b)[|a| + i] == x;
  }

  /** The location block proxies requests under the API's path prefix to
      the upstream block the file declares first, and a rate limit refers
      to the zone the file declares. */
  lemma UpstreamWiring(api: ApiConfig)
    ensures |RenderLines(api)| > 0 && RenderLines(api)[0] == "upstream " + UpstreamName(api) + " {"
    ensures "    location " + api.PathPrefix + "/ {" in RenderLines(api)
    ensures "        proxy_pass         http://" + UpstreamName(api) + ";" in RenderLines(api)
    ensures api.RateLimit.Enabled ==>
      && |RenderLines(api)| > 3
      && RenderLines(api)[3] == "limit_req_zone $binary_remote_addr zone=" + RateZone(api) + ":10m rate="
                                + DecimalString(api.RateLimit.RequestsPerMinute) + "r/m;\n"
      && "        limit_req zone=" + RateZone(api) + " burst=10 nodelay;" in RenderLines(api)
  {
    RenderLinesBlocks(api);
    var u, z, sh, f, tail := UpstreamBlock(api), ZoneLines(api), ServerHead(api), ForwardLines(api), LimitLines(api) + ClosingLines;
    FirstOfConcat(u, z);
    FirstOfConcat(u + z, sh);
    FirstOfConcat(u + z + sh, f);
    FirstOfConcat(u + z + sh + f, tail);
    var location := LocationLines(api);
    assert location[0] in location && location[1] in location;
    assert location[0] in sh && location[1] in sh;
    if api.RateLimit.Enabled {
      assert |u| == 3;
      assert (u + z)[3] == z[0];
      IndexOfConcat(u + z, sh, 3);
      IndexOfConcat(u + z + sh, f, 3);
      IndexOfConcat(u + z + sh + f, tail, 3);
      assert LimitLines(api)[0] in tail;
    }
  }

  lemma FirstOfConcat<T>(a: seq<T>, b: seq<T>)
    requires |a| > 0
    ensures (a + b)[0] == a[0]
  {
  }

  lemma IndexOfConcat<T>(a: seq<T>, b: seq<T>, i: int)
    requires 0 <= i < |a|
    ensures (a + b)[i] == a[i]
  {
  }

  /** The dash in a header name becomes an underscore and capitals fold. */
  lemma HeaderVariableExample()
    ensures HeaderVariable("X-Api-Key") == "x_api_key"
  {
  }
}
