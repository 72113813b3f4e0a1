/**
 * The handler table (routes/botRoutes.js): five commands, six callback
 * triggers and two message handlers, registered in this order. An update is
 * handled by the first registered route whose trigger fires. Callback
 * triggers are the regular expressions `/<prefix>(.+)/`, except the literal
 * `'backToMenu'`; the captured group is handed to the handler as its token.
 */
module Routes {
  import opened Wrappers
  import opened Strings
  import opened FileView
  import FileModel

  datatype Handler =
    | StartCmd | UploadCmd | GetCmd | StatsCmd | SubmitCmd
    | YearSelection | BranchSelection | CategorySelection | FileOptionsAction | BackToMenuAction | FileDownload
    | TextMessage | MediaMessage

  /** The five callback patterns `/<prefix>(.+)/`. */
  datatype Pattern = YearPattern | BranchPattern | CategoryPattern | OptionsPattern | DownloadPattern

  function PrefixOf(p: Pattern): string {
    match p
    case YearPattern => YearPrefix
    case BranchPattern => BranchPrefix
    case CategoryPattern => CategoryPrefix
    case OptionsPattern => OptionsPrefix
    case DownloadPattern => DownloadPrefix
  }

  /** How a route is registered: `bot.command`, `bot.action` with a pattern or a string, `bot.on`. */
  datatype Trigger = Command(name: string) | Action(pattern: Pattern) | Exact(data: string) | OnText | OnMedia

  datatype Route = Route(trigger: Trigger, handler: Handler)

  /** The kinds of update the table distinguishes. */
  datatype Update = CallbackUpdate(data: string) | TextUpdate(text: string) | MediaUpdate

  /** A template literal `${v}` of an environment variable: an unset one reads `"undefined"`. */
  function ConfiguredName(v: Option<string>): (n: string)
    ensures v.Some? ==> n == v.value
    ensures v.None? ==> n == "undefined"
  {
    match v
    case Some(s) => s
    case None => "undefined"
  }

  /** The command handlers, in registration order. */
  function CommandRoutes(uplCmd: Option<string>, statsCmd: Option<string>): seq<Route> {
    [Route(Command("start"), StartCmd),
     Route(Command(ConfiguredName(uplCmd)), UploadCmd),
     Route(Command("get"), GetCmd),
     Route(Command(ConfiguredName(statsCmd)), StatsCmd),
     Route(Command("submit"), SubmitCmd)]
  }

  /** The callback-query handlers, in registration order. */
  const CallbackRoutes: seq<Route> :=
    [Route(Action(YearPattern), YearSelection),
     Route(Action(BranchPattern), BranchSelection),
     Route(Action(CategoryPattern), CategorySelection),
     Route(Action(OptionsPattern), FileOptionsAction),
     Route(Exact(BackToMenuData), BackToMenuAction),
     Route(Action(DownloadPattern), FileDownload)]

  /** The message handlers. */
  const MessageRoutes: seq<Route> := [Route(OnText, TextMessage), Route(OnMedia, MediaMessage)]

  /** The table `setupRoutes(bot, config)` builds, in registration order. */
  function RouteTable(uplCmd: Option<string>, statsCmd: Option<string>): seq<Route> {
    CommandRoutes(uplCmd, statsCmd) + CallbackRoutes + MessageRoutes
  }

  /** The bot's handler table, filled by registration calls. */
  class Router {
    var routes: seq<Route>

    constructor ()
      ensures routes == []
    {
      routes := [];
    }

    /** `setupRoutes`: the command, callback and message registrations, in source order. */
    method SetupRoutes(uplCmd: Option<string>, statsCmd: Option<string>)
      modifies this
      ensures routes == old(routes) + RouteTable(uplCmd, statsCmd)
    {
      RegisterCommands(uplCmd, statsCmd);
      RegisterCallbacks();
      RegisterMessageHandlers();
    }

    method RegisterCommands(uplCmd: Option<string>, statsCmd: Option<string>)
      modifies this
      ensures routes == old(routes) + CommandRoutes(uplCmd, statsCmd)
    {
      routes := routes + [Route(Command("start"), StartCmd)];
      routes := routes + [Route(Command(ConfiguredName(uplCmd)), UploadCmd)];
      routes := routes + [Route(Command("get"), GetCmd)];
      routes := routes + [Route(Command(ConfiguredName(statsCmd)), StatsCmd)];
      routes := routes + [Route(Command("submit"), SubmitCmd)];
    }

    method RegisterCallbacks()
      modifies this
      ensures routes == old(routes) + CallbackRoutes
    {
      routes := routes + [Route(Action(YearPattern), YearSelection)];
      routes := routes + [Route(Action(BranchPattern), BranchSelection)];
      routes := routes + [Route(Action(CategoryPattern), CategorySelection)];
      routes := routes + [Route(Action(OptionsPattern), FileOptionsAction)];
      routes := routes + [Route(Exact(BackToMenuData), BackToMenuAction)];
      routes := routes + [Route(Action(DownloadPattern), FileDownload)];
    }

    method RegisterMessageHandlers()
      modifies this
      ensures routes == old(routes) + MessageRoutes
    {
      routes := routes + [Route(OnText, TextMessage)];
      routes := routes + [Route(OnMedia, MediaMessage)];
    }
  }

  // ---------------------------------------------------------------------
  // The regular expression `/p(.+)/`

  /** The characters JavaScript's `.` does not match. */
  predicate IsLineTerminator(c: char) {
    c == '\n' || c == '\r' || c == '\U{2028}' || c == '\U{2029}'
  }

  /** `/p(.+)/` matches at index `i`: `p` is there and at least one character `.` accepts follows. */
  predicate MatchesAt(s: string, p: string, i: int) {
    OccursAt(s, p, i) && i + |p| < |s| && !IsLineTerminator(s[i + |p|])
  }

  /** The leftmost index at or after `from` where the pattern matches: the regex search. */
  function FirstMatch(s: string, p: string, from: nat): (r: Option<nat>)
    requires from <= |s|
    ensures r.Some? ==> from <= r.value <= |s| && MatchesAt(s, p, r.value)
                        && forall j :: from <= j < r.value ==> !MatchesAt(s, p, j)
    ensures r.None? ==> forall j :: from <= j <= |s| ==> !MatchesAt(s, p, j)
    decreases |s| - from
  {
    if MatchesAt(s, p, from) then Some(from)
    else if from == |s| then None
    else FirstMatch(s, p, from + 1)
  }

  /** The end of the run of `.`-characters starting at `k`: where the greedy `(.+)` stops. */
  function RunEnd(s: string, k: nat): (e: nat)
    requires k <= |s|
    ensures k <= e <= |s|
    ensures forall j :: k <= j < e ==> !IsLineTerminator(s[j])
    ensures e == |s| || IsLineTerminator(s[e])
    decreases |s| - k
  {
    if k == |s| || IsLineTerminator(s[k]) then k else RunEnd(s, k + 1)
  }

  /** `ctx.match[1]` for the pattern `/p(.+)/` on `s`, or nothing when it does not match. */
  function Capture(s: string, p: string): (r: Option<string>)
    ensures r.None? <==> forall j :: 0 <= j <= |s| ==> !MatchesAt(s, p, j)
    ensures r.Some? ==> |r.value| > 0 && forall k :: 0 <= k < |r.value| ==> !IsLineTerminator(r.value[k])
  {
    match FirstMatch(s, p, 0)
    case None => None
    case Some(i) => Some(s[i + |p|..RunEnd(s, i + |p|)])
  }

  /**
   * What `ctx.match[1]` holds: the greedy run of `.`-characters after the
   * leftmost match of the pattern.
   */
  lemma CaptureIsLeftmostRun(s: string, p: string)
    requires Capture(s, p).Some?
    ensures exists i :: && MatchesAt(s, p, i)
                        && (forall j :: 0 <= j < i ==> !MatchesAt(s, p, j))
                        && Capture(s, p).value == s[i + |p|..RunEnd(s, i + |p|)]
  {
    var i := FirstMatch(s, p, 0).value;
    assert Capture(s, p).value == s[i + |p|..RunEnd(s, i + |p|)];
  }

  // ---------------------------------------------------------------------
  // Commands and dispatch

  predicate IsCommandChar(c: char) {
    'a' <= c <= 'z' || 'A' <= c <= 'Z' || '0' <= c <= '9' || c == '_'
  }

  function WordEnd(s: string, k: nat): (e: nat)
    requires k <= |s|
    ensures k <= e <= |s|
    ensures forall j :: k <= j < e ==> IsCommandChar(s[j])
    ensures e == |s| || !IsCommandChar(s[e])
    decreases |s| - k
  {
    if k == |s| || !IsCommandChar(s[k]) then k else WordEnd(s, k + 1)
  }

  /** The command a text opens with: `/` and the word that follows it. */
  function CommandName(text: string): (r: Option<string>)
    ensures r.Some? <==> |text| > 1 && text[0] == '/' && IsCommandChar(text[1])
    ensures r.Some? ==> StartsWith(text, "/") && 0 < |r.value| < |text| && text[1..1 + |r.value|] == r.value
    ensures r.Some? ==> && (forall k :: 1 <= k <= |r.value| ==> IsCommandChar(text[k]))
                        && (1 + |r.value| == |text| || !IsCommandChar(text[1 + |r.value|]))
    ensures !StartsWith(text, "/") ==> r.None?
  {
    if |text| > 1 && text[0] == '/' && IsCommandChar(text[1]) then Some(text[1..WordEnd(text, 1)]) else None
  }

  predicate Fires(t: Trigger, u: Update) {
    match t
    case Command(name) => u.TextUpdate? && CommandName(u.text) == Some(name)
    case Action(pattern) => u.CallbackUpdate? && Capture(u.data, PrefixOf(pattern)).Some?
    case Exact(data) => u.CallbackUpdate? && u.data == data
    case OnText => u.TextUpdate?
    case OnMedia => u.MediaUpdate?
  }

  /** The handler chosen for an update, with `ctx.match[1]` when the trigger is a pattern. */
  datatype Routed = Routed(handler: Handler, token: Option<string>)

  /** What a route hands its handler: `ctx.match[1]` for a pattern trigger, nothing otherwise. */
  function RoutedBy(r: Route, u: Update): Routed {
    Routed(r.handler, if r.trigger.Action? && u.CallbackUpdate? then Capture(u.data, PrefixOf(r.trigger.pattern)) else None)
  }

  /** The first route whose trigger fires. */
  function Dispatch(routes: seq<Route>, u: Update): (r: Option<Routed>)
    ensures r.None? <==> forall k :: 0 <= k < |routes| ==> !Fires(routes[k].trigger, u)
  {
    if routes == [] then None
    else if Fires(routes[0].trigger, u) then Some(RoutedBy(routes[0], u))
    else Dispatch(routes[1..], u)
  }

  /** The route at `k` handles the update exactly when it fires and no earlier route does. */
  lemma {:induction false} DispatchFirst(routes: seq<Route>, u: Update, k: nat)
    requires k < |routes| && Fires(routes[k].trigger, u)
    requires forall j :: 0 <= j < k ==> !Fires(routes[j].trigger, u)
    ensures Dispatch(routes, u) == Some(RoutedBy(routes[k], u))
  {
    if k > 0 {
      DispatchFirst(routes[1..], u, k - 1);
    }
  }

  // ---------------------------------------------------------------------
  // The callback grammar round trip

  /** A token the keyboards can put after a prefix: non-empty, no `:` and no line terminator. */
  predicate Clean(t: string) {
    |t| > 0 && forall k :: 0 <= k < |t| ==> t[k] != ':' && !IsLineTerminator(t[k])
  }

  /** Each prefix ends with its only `:`. */
  predicate ColonOnlyAtEnd(p: string) {
    |p| > 0 && p[|p| - 1] == ':' && forall k :: 0 <= k < |p| - 1 ==> p[k] != ':'
  }

  lemma PrefixEndsInColon(p: Pattern)
    ensures ColonOnlyAtEnd(PrefixOf(p))
  {
  }

  /** No prefix is a suffix of another: `file:` is not the tail of `fileOptions:`, and so on. */
  lemma PrefixesSuffixFree(p: Pattern, q: Pattern)
    requires p != q && |PrefixOf(q)| <= |PrefixOf(p)|
    ensures PrefixOf(p)[|PrefixOf(p)| - |PrefixOf(q)|..] != PrefixOf(q)
  {
    var a, b := PrefixOf(p), PrefixOf(q);
    assert a[|a| - 2] != b[|b| - 2];
  }

  /** A prefix occurs in a prefix followed by a clean token only as that prefix itself, at the start. */
  lemma OnlyOwnPrefixOccurs(p: Pattern, t: string, q: Pattern, i: int)
    requires Clean(t) && OccursAt(PrefixOf(p) + t, PrefixOf(q), i)
    ensures q == p && i == 0
  {
    PrefixEndsInColon(p);
    PrefixEndsInColon(q);
    ColonAnchored(PrefixOf(p), PrefixOf(q), t, i);
    if q != p {
      PrefixesSuffixFree(p, q);
    }
  }

  /** An occurrence of a colon-terminated word in `a + t` ends where `a` ends, when only `a`'s last character is a colon. */
  lemma ColonAnchored(a: string, b: string, t: string, i: int)
    requires ColonOnlyAtEnd(a) && ColonOnlyAtEnd(b) && Clean(t) && OccursAt(a + t, b, i)
    ensures i + |b| == |a| && a[i..] == b
  {
    var s := a + t;
    var e := i + |b| - 1;
    assert s[e] == b[|b| - 1] == ':';
    assert e == |a| - 1;
    assert s[i..i + |b|] == a[i..];
  }

  /** On `<prefix of p> + t`, pattern `p` captures exactly `t`, and every other pattern fails. */
  lemma CaptureOfPrefixed(p: Pattern, t: string)
    requires Clean(t)
    ensures Capture(PrefixOf(p) + t, PrefixOf(p)) == Some(t)
    ensures forall q :: q != p ==> Capture(PrefixOf(p) + t, PrefixOf(q)).None?
  {
    var a := PrefixOf(p);
    var s := a + t;
    assert s[0..|a|] == a;
    assert MatchesAt(s, a, 0);
    assert FirstMatch(s, a, 0) == Some(0);
    var e := RunEnd(s, |a|);
    assert s[|a|..e] == t;
    forall q, j | q != p && 0 <= j <= |s|
      ensures !MatchesAt(s, PrefixOf(q), j)
    {
      if OccursAt(s, PrefixOf(q), j) {
        OnlyOwnPrefixOccurs(p, t, q, j);
      }
    }
  }

  /** The handler registered for each pattern. */
  function HandlerOf(p: Pattern): Handler {
    match p
    case YearPattern => YearSelection
    case BranchPattern => BranchSelection
    case CategoryPattern => CategorySelection
    case OptionsPattern => FileOptionsAction
    case DownloadPattern => FileDownload
  }

  /** Dispatch over a table made of two parts: the second is consulted only when nothing in the first fires. */
  lemma {:induction false} DispatchAppend(a: seq<Route>, b: seq<Route>, u: Update)
    ensures Dispatch(a + b, u) == if Dispatch(a, u).Some? then Dispatch(a, u) else Dispatch(b, u)
  {
    if a == [] {
      assert a + b == b;
    } else {
      assert (a + b)[0] == a[0];
      assert (a + b)[1..] == a[1..] + b;
      DispatchAppend(a[1..], b, u);
    }
  }

  /** Commands fire only on texts; callbacks and media pass through them. */
  lemma CommandsIgnoreOthers(uplCmd: Option<string>, statsCmd: Option<string>, u: Update)
    requires !u.TextUpdate?
    ensures Dispatch(CommandRoutes(uplCmd, statsCmd), u) == None
  {
  }

  /**
   * Every `<prefix><token>` the keyboards emit, with a clean token, reaches
   * the handler of that prefix with that token.
   */
  lemma DispatchPrefixed(uplCmd: Option<string>, statsCmd: Option<string>, p: Pattern, t: string)
    requires Clean(t)
    ensures Dispatch(RouteTable(uplCmd, statsCmd), CallbackUpdate(PrefixOf(p) + t)) == Some(Routed(HandlerOf(p), Some(t)))
  {
    var u := CallbackUpdate(PrefixOf(p) + t);
    CallbackDispatch(p, t);
    CommandsIgnoreOthers(uplCmd, statsCmd, u);
    DispatchAppend(CommandRoutes(uplCmd, statsCmd), CallbackRoutes, u);
    DispatchAppend(CommandRoutes(uplCmd, statsCmd) + CallbackRoutes, MessageRoutes, u);
  }

  /** Within the callback routes, `<prefix><token>` fires its own pattern first. */
  lemma CallbackDispatch(p: Pattern, t: string)
    requires Clean(t)
    ensures Dispatch(CallbackRoutes, CallbackUpdate(PrefixOf(p) + t)) == Some(Routed(HandlerOf(p), Some(t)))
  {
    match p
    case YearPattern => CallbackDispatchAt(p, t, 0);
    case BranchPattern => CallbackDispatchAt(p, t, 1);
    case CategoryPattern => CallbackDispatchAt(p, t, 2);
    case OptionsPattern => CallbackDispatchAt(p, t, 3);
    case DownloadPattern => CallbackDispatchAt(p, t, 5);
  }

  lemma CallbackDispatchAt(p: Pattern, t: string, k: nat)
    requires Clean(t) && k < |CallbackRoutes| && CallbackRoutes[k] == Route(Action(p), HandlerOf(p))
    requires forall j :: 0 <= j < k ==> (CallbackRoutes[j].trigger.Action? && CallbackRoutes[j].trigger.pattern != p)
                                        || CallbackRoutes[j].trigger == Exact(BackToMenuData)
    ensures Dispatch(CallbackRoutes, CallbackUpdate(PrefixOf(p) + t)) == Some(Routed(HandlerOf(p), Some(t)))
  {
    CaptureOfPrefixed(p, t);
    var u := CallbackUpdate(PrefixOf(p) + t);
    PrefixEndsInColon(p);
    assert (PrefixOf(p) + t)[|PrefixOf(p)| - 1] == ':';
    DispatchFirst(CallbackRoutes, u, k);
  }

  /** `'backToMenu'` is matched by its literal trigger and by no pattern. */
  lemma DispatchBackToMenu(uplCmd: Option<string>, statsCmd: Option<string>)
    ensures Dispatch(RouteTable(uplCmd, statsCmd), CallbackUpdate(BackToMenuData)) == Some(Routed(BackToMenuAction, None))
    ensures forall p :: Capture(BackToMenuData, PrefixOf(p)).None?
  {
    forall p, j | 0 <= j <= |BackToMenuData|
      ensures !MatchesAt(BackToMenuData, PrefixOf(p), j)
    {
      PrefixEndsInColon(p);
    }
    var u := CallbackUpdate(BackToMenuData);
    DispatchFirst(CallbackRoutes, u, 4);
    CommandsIgnoreOthers(uplCmd, statsCmd, u);
    DispatchAppend(CommandRoutes(uplCmd, statsCmd), CallbackRoutes, u);
    DispatchAppend(CommandRoutes(uplCmd, statsCmd) + CallbackRoutes, MessageRoutes, u);
  }

  /** A file-options callback never fires the download pattern, and a download callback never the options pattern. */
  lemma OptionsAndDownloadDisjoint(id: string)
    requires Clean(id)
    ensures Capture(OptionsPrefix + id, DownloadPrefix).None?
    ensures Capture(DownloadPrefix + id, OptionsPrefix).None?
  {
    CaptureOfPrefixed(OptionsPattern, id);
    CaptureOfPrefixed(DownloadPattern, id);
  }

  /** Every year button routes to the year handler with that year's code. */
  lemma YearKeyboardRoundTrip(uplCmd: Option<string>, statsCmd: Option<string>)
    ensures forall i :: 0 <= i < |YearKeyboard()| ==>
              Dispatch(RouteTable(uplCmd, statsCmd), CallbackUpdate(YearKeyboard()[i][0].data))
              == Some(Routed(YearSelection, Some(FileModel.YearCode(FileModel.Years[i]))))
  {
    forall i | 0 <= i < |YearKeyboard()|
      ensures Dispatch(RouteTable(uplCmd, statsCmd), CallbackUpdate(YearKeyboard()[i][0].data))
              == Some(Routed(YearSelection, Some(FileModel.YearCode(FileModel.Years[i]))))
    {
      YearCodeClean(FileModel.Years[i]);
      DispatchPrefixed(uplCmd, statsCmd, YearPattern, FileModel.YearCode(FileModel.Years[i]));
    }
  }

  /** Every branch button, of either branch keyboard, routes to the branch handler with that branch's code. */
  lemma BranchKeyboardRoundTrip(uplCmd: Option<string>, statsCmd: Option<string>, yearSem: string)
    ensures forall i :: 0 <= i < |BranchKeyboard(yearSem)| ==>
              Dispatch(RouteTable(uplCmd, statsCmd), CallbackUpdate(BranchKeyboard(yearSem)[i][0].data))
              == Some(Routed(BranchSelection, Some(FileModel.BranchCode(FileModel.Branches[i]))))
  {
    BranchKeyboardFollowsSchema(yearSem);
    forall i | 0 <= i < |BranchKeyboard(yearSem)|
      ensures Dispatch(RouteTable(uplCmd, statsCmd), CallbackUpdate(BranchKeyboard(yearSem)[i][0].data))
              == Some(Routed(BranchSelection, Some(FileModel.BranchCode(FileModel.Branches[i]))))
    {
      BranchCodeClean(FileModel.Branches[i]);
      DispatchPrefixed(uplCmd, statsCmd, BranchPattern, FileModel.BranchCode(FileModel.Branches[i]));
    }
  }

  /** Every category button routes to the category handler with its token, the wildcard included. */
  lemma CategoryKeyboardRoundTrip(uplCmd: Option<string>, statsCmd: Option<string>)
    ensures forall i :: 0 <= i < |CategoryKeyboard()| ==>
              Dispatch(RouteTable(uplCmd, statsCmd), CallbackUpdate(CategoryKeyboard()[i][0].data))
              == Some(Routed(CategorySelection, Some(CategoryTokens[i])))
  {
    forall i | 0 <= i < |CategoryKeyboard()|
      ensures Dispatch(RouteTable(uplCmd, statsCmd), CallbackUpdate(CategoryKeyboard()[i][0].data))
              == Some(Routed(CategorySelection, Some(CategoryTokens[i])))
    {
      CategoryTokensClean(i);
      DispatchPrefixed(uplCmd, statsCmd, CategoryPattern, CategoryTokens[i]);
    }
  }

  /** The download button routes to the download handler with the file's `_id`. */
  lemma DownloadButtonRoundTrip(uplCmd: Option<string>, statsCmd: Option<string>, id: string)
    requires Clean(id)
    ensures Dispatch(RouteTable(uplCmd, statsCmd), CallbackUpdate(FileOptionsKeyboard(id)[0][0].data))
            == Some(Routed(FileDownload, Some(id)))
  {
    var data := FileOptionsKeyboard(id)[0][0].data;
    assert data == PrefixOf(DownloadPattern) + id;
    DispatchPrefixed(uplCmd, statsCmd, DownloadPattern, id);
  }

  /** The back button of the file options routes to the back-to-menu handler. */
  lemma BackButtonRoundTrip(uplCmd: Option<string>, statsCmd: Option<string>, id: string)
    ensures Dispatch(RouteTable(uplCmd, statsCmd), CallbackUpdate(FileOptionsKeyboard(id)[1][0].data))
            == Some(Routed(BackToMenuAction, None))
  {
    DispatchBackToMenu(uplCmd, statsCmd);
  }

  lemma YearCodeClean(y: FileModel.YearSem)
    ensures Clean(FileModel.YearCode(y))
  {
  }

  lemma BranchCodeClean(b: FileModel.Branch)
    ensures Clean(FileModel.BranchCode(b))
  {
  }

  lemma CategoryTokensClean(i: int)
    requires 0 <= i < |CategoryTokens|
    ensures Clean(CategoryTokens[i])
  {
  }

  /** Every file button routes to the options handler with that file's `_id`. */
  lemma FileListRoundTrip(uplCmd: Option<string>, statsCmd: Option<string>, docs: seq<Doc>, fileCatgry: string)
    requires forall k :: 0 <= k < |docs| ==> Clean(docs[k].id)
    ensures forall i :: 0 <= i < |FileListKeyboard(docs, fileCatgry)| ==>
              Dispatch(RouteTable(uplCmd, statsCmd), CallbackUpdate(FileListKeyboard(docs, fileCatgry)[i][0].data))
              == Some(Routed(FileOptionsAction, Some(docs[i].id)))
  {
    forall i | 0 <= i < |FileListKeyboard(docs, fileCatgry)|
      ensures Dispatch(RouteTable(uplCmd, statsCmd), CallbackUpdate(FileListKeyboard(docs, fileCatgry)[i][0].data))
              == Some(Routed(FileOptionsAction, Some(docs[i].id)))
    {
      DispatchPrefixed(uplCmd, statsCmd, OptionsPattern, docs[i].id);
    }
  }

  /**
   * A command text reaches the first command route with its name: `start`,
   * `get` and `submit` by their fixed names, the upload and stats commands by
   * the configured names (`"undefined"` when unset); any other command text
   * falls through to the text handler.
   */
  lemma CommandNames(uplCmd: Option<string>, statsCmd: Option<string>, text: string)
    requires CommandName(text).Some?
    ensures var n := CommandName(text).value;
            Dispatch(RouteTable(uplCmd, statsCmd), TextUpdate(text)) ==
              Some(Routed(if n == "start" then StartCmd
                          else if n == ConfiguredName(uplCmd) then UploadCmd
                          else if n == "get" then GetCmd
                          else if n == ConfiguredName(statsCmd) then StatsCmd
                          else if n == "submit" then SubmitCmd
                          else TextMessage, None))
  {
    var n := CommandName(text).value;
    var commands := CommandRoutes(uplCmd, statsCmd);
    if n == "start" {
      CommandAt(uplCmd, statsCmd, text, 0);
    } else if n == ConfiguredName(uplCmd) {
      CommandAt(uplCmd, statsCmd, text, 1);
    } else if n == "get" {
      CommandAt(uplCmd, statsCmd, text, 2);
    } else if n == ConfiguredName(statsCmd) {
      CommandAt(uplCmd, statsCmd, text, 3);
    } else if n == "submit" {
      CommandAt(uplCmd, statsCmd, text, 4);
    } else {
      var u := TextUpdate(text);
      DispatchAppend(commands, CallbackRoutes, u);
      DispatchAppend(commands + CallbackRoutes, MessageRoutes, u);
      assert Dispatch(commands, u) == None;
      assert Dispatch(CallbackRoutes, u) == None;
      DispatchFirst(MessageRoutes, u, 0);
    }
  }

  /** A text `/<word><rest>` names the command `word` when `rest` does not continue the word. */
  lemma CommandNameOfWord(w: string, rest: string)
    requires |w| > 0 && forall k :: 0 <= k < |w| ==> IsCommandChar(w[k])
    requires rest == [] || !IsCommandChar(rest[0])
    ensures CommandName("/" + w + rest) == Some(w)
  {
    var t := "/" + w + rest;
    assert forall k :: 1 <= k <= |w| ==> t[k] == w[k - 1];
    assert |t| > 1 + |w| ==> t[1 + |w|] == rest[0];
    var e := WordEnd(t, 1);
    assert e == 1 + |w|;
    assert t[1..e] == w;
  }

  /** `/start`, alone or followed by a space and more text, reaches the start handler whatever the configuration. */
  lemma StartTextStarts(uplCmd: Option<string>, statsCmd: Option<string>, rest: string)
    requires rest == [] || !IsCommandChar(rest[0])
    ensures Dispatch(RouteTable(uplCmd, statsCmd), TextUpdate("/start" + rest)) == Some(Routed(StartCmd, None))
  {
    assert "/start" + rest == "/" + "start" + rest;
    CommandNameOfWord("start", rest);
    CommandNames(uplCmd, statsCmd, "/start" + rest);
  }

  /** The command route at `k` handles a text naming it when no earlier command route has that name. */
  lemma CommandAt(uplCmd: Option<string>, statsCmd: Option<string>, text: string, k: nat)
    requires k < 5 && CommandName(text) == Some(CommandRoutes(uplCmd, statsCmd)[k].trigger.name)
    requires forall j :: 0 <= j < k ==> CommandName(text) != Some(CommandRoutes(uplCmd, statsCmd)[j].trigger.name)
    ensures Dispatch(RouteTable(uplCmd, statsCmd), TextUpdate(text)) == Some(Routed(CommandRoutes(uplCmd, statsCmd)[k].handler, None))
  {
    var u := TextUpdate(text);
    var commands := CommandRoutes(uplCmd, statsCmd);
    DispatchFirst(commands, u, k);
    DispatchAppend(commands, CallbackRoutes, u);
    DispatchAppend(commands + CallbackRoutes, MessageRoutes, u);
  }

  /** A text that is not a command reaches the text handler. */
  lemma PlainTextReachesTextHandler(uplCmd: Option<string>, statsCmd: Option<string>, text: string)
    requires CommandName(text).None?
    ensures Dispatch(RouteTable(uplCmd, statsCmd), TextUpdate(text)) == Some(Routed(TextMessage, None))
  {
    var t := TextUpdate(text);
    DispatchAppend(CommandRoutes(uplCmd, statsCmd), CallbackRoutes, t);
    DispatchAppend(CommandRoutes(uplCmd, statsCmd) + CallbackRoutes, MessageRoutes, t);
    assert Dispatch(CommandRoutes(uplCmd, statsCmd), t) == None;
    assert Dispatch(CallbackRoutes, t) == None;
    DispatchFirst(MessageRoutes, t, 0);
  }

  /** Every media message reaches the media handler. */
  lemma MediaReachesMediaHandler(uplCmd: Option<string>, statsCmd: Option<string>)
    ensures Dispatch(RouteTable(uplCmd, statsCmd), MediaUpdate) == Some(Routed(MediaMessage, None))
  {
    CommandsIgnoreOthers(uplCmd, statsCmd, MediaUpdate);
    DispatchAppend(CommandRoutes(uplCmd, statsCmd), CallbackRoutes, MediaUpdate);
    DispatchAppend(CommandRoutes(uplCmd, statsCmd) + CallbackRoutes, MessageRoutes, MediaUpdate);
    assert Dispatch(CallbackRoutes, MediaUpdate) == None;
    DispatchFirst(MessageRoutes, MediaUpdate, 1);
  }
}
