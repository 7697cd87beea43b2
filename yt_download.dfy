/** The pure part of commands/yt-download.js: turning a video id or link into a watch
    link (`buildLink`), the default output name taken from it (`buildOutput`), and the
    precedence between the caller's options, the command-line flags and the defaults
    for the output file and directory. */
module YtDownload {
  import opened Wrappers
  import opened Strings

  const YtUrl := "https://www.youtube.com"
  /** The text `buildLink` puts before a bare id. */
  const WatchPrefix := YtUrl + "/watch?v="
  /** What `/youtube\.com/` looks for. */
  const Host := "youtube.com"

  // ---------------------------------------------------------------------------------
  // buildLink

  /** `buildLink(link_or_id)`: a text that mentions the host is already a link; anything
      else is taken as an id and appended to the watch prefix. Either way the result
      mentions the host and ends with the input. */
  function BuildLink(linkOrId: string): (r: string)
    ensures Contains(r, Host)
    ensures |linkOrId| <= |r| && r[|r| - |linkOrId|..] == linkOrId
  {
    if Contains(linkOrId, Host) then linkOrId
    else
      assert WatchPrefix + linkOrId == "https://www." + Host + ("/watch?v=" + linkOrId);
      ContainsMiddle("https://www.", Host, "/watch?v=" + linkOrId);
      WatchPrefix + linkOrId
  }

  /** The two cases of `buildLink`, and that it is idempotent: a built link is kept. */
  lemma BuildLinkCases(x: string)
    ensures Contains(x, Host) ==> BuildLink(x) == x
    ensures !Contains(x, Host) ==> BuildLink(x) == WatchPrefix + x
    ensures BuildLink(BuildLink(x)) == BuildLink(x)
  {
  }

  // ---------------------------------------------------------------------------------
  // buildOutput: the regular expression /v=(.*)$/

  /** The characters `.` does not match in a JavaScript regular expression. */
  predicate IsLineTerminator(c: char)
  {
    c == '\n' || c == '\r' || c == '\U{2028}' || c == '\U{2029}'
  }

  predicate NoLineTerminator(s: string)
  {
    forall k :: 0 <= k < |s| ==> !IsLineTerminator(s[k])
  }

  /** `/v=(.*)$/` matches starting at `i`: "v=" is there and `.*` can run from after it
      to the end of the text, that is, no line terminator follows. */
  predicate MatchesAt(s: string, i: int)
  {
    OccursAt(s, "v=", i) && NoLineTerminator(s[i + 2..])
  }

  /** The leftmost start at or after `i` where the expression matches. */
  function FirstMatch(s: string, i: nat): (r: Option<nat>)
    requires i <= |s|
    ensures r.Some? ==> i <= r.value && MatchesAt(s, r.value)
    ensures r.Some? ==> forall j :: i <= j < r.value ==> !MatchesAt(s, j)
    ensures r.None? ==> forall j :: i <= j <= |s| ==> !MatchesAt(s, j)
    decreases |s| - i
  {
    if i + 2 > |s| then None
    else if MatchesAt(s, i) then Some(i)
    else FirstMatch(s, i + 1)
  }

  /** `buildOutput(link)`: the capture of the leftmost match followed by ".flv"; `None`
      when nothing matches, where `match` returns null and indexing it throws. */
  function BuildOutput(link: string): (r: Option<string>)
    ensures r.None? <==> forall j :: 0 <= j <= |link| ==> !MatchesAt(link, j)
    ensures r.Some? ==> exists j :: && 0 <= j <= |link| && MatchesAt(link, j)
                                     && (forall k :: 0 <= k < j ==> !MatchesAt(link, k))
                                     && r.value == link[j + 2..] + ".flv"
  {
    match FirstMatch(link, 0)
    case None => None
    case Some(i) => Some(link[i + 2..] + ".flv")
  }

  /** Without "v=" there is nothing to capture. */
  lemma NoVNoOutput(link: string)
    requires !Contains(link, "v=")
    ensures BuildOutput(link).None?
  {
    forall j | 0 <= j <= |link|
      ensures !MatchesAt(link, j)
    {
      assert !OccursAt(link, "v=", j);
    }
  }

  /** The watch prefix holds exactly one "v=", at its very end. */
  lemma WatchPrefixShape()
    ensures |WatchPrefix| == 32 && WatchPrefix[30..] == "v="
    ensures forall j :: 0 <= j < 30 ==> WatchPrefix[j] != 'v'
  {
    assert WatchPrefix == "https://www.youtube.com/watch?v=";
  }

  /** Round trip: the output name built from the link for a bare id is the id with
      ".flv" appended, provided the id does not mention the host (so it is not taken as
      a link) and has no line terminator (so `.*` reaches the end). */
  lemma {:induction false} OutputOfBuiltLink(id: string)
    requires !Contains(id, Host) && NoLineTerminator(id)
    ensures BuildOutput(BuildLink(id)) == Some(id + ".flv")
  {
    var link := BuildLink(id);
    WatchPrefixShape();
    assert link == WatchPrefix + id;
    assert link[32..] == id;
    assert link[30..32] == "v=";
    assert MatchesAt(link, 30);
    forall j | 0 <= j < 30
      ensures !MatchesAt(link, j)
    {
      assert link[j] == WatchPrefix[j];
    }
    var first := FirstMatch(link, 0);
    assert first == Some(30);
  }

  // ---------------------------------------------------------------------------------
  // Where the download goes: `a || b || c` with JavaScript truthiness

  /** A string-valued option or flag that `||` keeps: present and not empty. */
  predicate Truthy(v: Option<string>)
  {
    v.Some? && v.value != ""
  }

  /** `options.output || cli.flags.output || buildOutput(link)`: `None` when both are
      falsy and `buildOutput` throws. The name is never empty. */
  function OutputName(optionOutput: Option<string>, flagOutput: Option<string>, link: string): (r: Option<string>)
    ensures r.None? <==> !Truthy(optionOutput) && !Truthy(flagOutput) && BuildOutput(link).None?
    ensures r.Some? ==> r.value != ""
    ensures Truthy(optionOutput) ==> r == optionOutput
    ensures !Truthy(optionOutput) && Truthy(flagOutput) ==> r == flagOutput
    ensures !Truthy(optionOutput) && !Truthy(flagOutput) ==> r == BuildOutput(link)
  {
    if Truthy(optionOutput) then optionOutput
    else if Truthy(flagOutput) then flagOutput
    else BuildOutput(link)
  }

  /** `options.dir || cli.flags.dir`, where the flag defaults to "." when it is not
      given: the directory is empty only when the flag was given as the empty string. */
  function OutputDir(optionDir: Option<string>, flagDir: Option<string>): (r: string)
    ensures r == "" <==> !Truthy(optionDir) && flagDir == Some("")
    ensures !Truthy(optionDir) && flagDir.None? ==> r == "."
    ensures Truthy(optionDir) ==> r == optionDir.value
    ensures !Truthy(optionDir) && flagDir.Some? ==> r == flagDir.value
  {
    if Truthy(optionDir) then optionDir.value
    else if flagDir.Some? then flagDir.value
    else "."
  }

  /** The `options` argument of `yt_download`. */
  datatype Options = Options(output: Option<string>, dir: Option<string>)

  /** What the download is started with: the link, the directory and the file name. */
  datatype Plan = Plan(link: string, dir: string, output: string)

  /** Lines 70-74 of `yt_download`: the id or link is the argument, or else the second
      command-line word; a missing one (`buildLink(undefined)`) or a failing
      `buildOutput` throws, which is `None`. */
  function Prepare(linkOrId: Option<string>, input: seq<string>, options: Options,
                   flagOutput: Option<string>, flagDir: Option<string>): (r: Option<Plan>)
    ensures r.Some? ==> Contains(r.value.link, Host) && r.value.output != ""
    ensures !Truthy(linkOrId) && |input| < 2 ==> r.None?
    ensures Truthy(linkOrId) ==>
      && (r.Some? <==> OutputName(options.output, flagOutput, BuildLink(linkOrId.value)).Some?)
      && (r.Some? ==> r.value.link == BuildLink(linkOrId.value))
    ensures !Truthy(linkOrId) && |input| >= 2 ==>
      && (r.Some? <==> OutputName(options.output, flagOutput, BuildLink(input[1])).Some?)
      && (r.Some? ==> r.value.link == BuildLink(input[1]))
    ensures r.Some? ==>
      (r.value.dir == OutputDir(options.dir, flagDir) && OutputName(options.output, flagOutput, r.value.link) == Some(r.value.output))
  {
    var chosen := if Truthy(linkOrId) then linkOrId else if |input| >= 2 then Some(input[1]) else None;
    if chosen.None? then None
    else
      var link := BuildLink(chosen.value);
      match OutputName(options.output, flagOutput, link)
      case None => None
      case Some(output) => Some(Plan(link, OutputDir(options.dir, flagDir), output))
  }

  /** With no options and no flags, a bare id downloads to "./<id>.flv" from its watch
      link, as the usage text promises. */
  lemma DefaultPlan(id: string, input: seq<string>)
    requires id != "" && !Contains(id, Host) && NoLineTerminator(id)
    ensures Prepare(Some(id), input, Options(None, None), None, None) == Some(Plan(WatchPrefix + id, ".", id + ".flv"))
  {
    OutputOfBuiltLink(id);
  }
}
