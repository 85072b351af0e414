/**
 * The OneDrive client: credentials with a mutable access token, the
 * retry-once-after-refresh wrapper, and the three drive operations
 * (`is_folder`, `ls_folder`, `get_download_link`). URL construction, reply
 * classification and the listing are pure functions; the client object and
 * its wrapper are imperative.
 */
module Storage {
  import opened Outcomes
  import opened Remote
  import PosixPath

  /** One row of a folder listing. */
  datatype FileInfo = FileInfo(name: string, size: int, lastUpdateDate: string)

  /** The five configuration values the client is built from. */
  datatype Config = Config(clientId: string, clientSecret: string, code: string, refreshToken: string, path: string)

  // ---------------------------------------------------------------------------
  // Configuration

  /** The keys `init_from_dict` looks up, in the order it looks them up. */
  const ConfigKeys: seq<string> := ["client_id", "client_secret", "code", "refresh_token", "path"]

  /** The first of `keys` that the mapping lacks, if any. */
  function FirstMissing(kv: map<string, string>, keys: seq<string>): (k: Option<string>)
    ensures k.None? <==> forall key :: key in keys ==> key in kv
    ensures k.Some? ==> k.value in keys && k.value !in kv
    ensures k.Some? ==> exists i :: 0 <= i < |keys| && keys[i] == k.value && forall j :: 0 <= j < i ==> keys[j] in kv
  {
    if keys == [] then None
    else if keys[0] !in kv then Some(keys[0])
    else
      var k := FirstMissing(kv, keys[1..]);
      assert forall key :: key in keys ==> key == keys[0] || key in keys[1..];
      if k.Some? then
        var i :| 0 <= i < |keys[1..]| && keys[1..][i] == k.value && forall j :: 0 <= j < i ==> keys[1..][j] in kv;
        assert keys[i + 1] == k.value && forall j :: 0 <= j < i + 1 ==> keys[j] in kv;
        k
      else k
  }

  /** `init_from_dict`'s five lookups: a KeyError names the first key missing. */
  function ReadConfig(kv: map<string, string>): (r: Outcome<Config>)
    ensures r.Returned? <==> forall key :: key in ConfigKeys ==> key in kv
    ensures r.Returned? ==> r.value == Config(kv["client_id"], kv["client_secret"], kv["code"], kv["refresh_token"], kv["path"])
    ensures r.Raised? ==> r.error.MissingKey? && r.error.key in ConfigKeys && r.error.key !in kv
  {
    match FirstMissing(kv, ConfigKeys)
    case Some(k) => Raised(MissingKey(k))
    case None =>
      assert "client_id" in ConfigKeys && "client_secret" in ConfigKeys && "code" in ConfigKeys;
      assert "refresh_token" in ConfigKeys && "path" in ConfigKeys;
      Returned(Config(kv["client_id"], kv["client_secret"], kv["code"], kv["refresh_token"], kv["path"]))
  }

  /** The constructor's root path: one leading '/' is stripped, no more. */
  function NormaliseRoot(path: string): (r: string)
    ensures PosixPath.IsAbsolute(path) ==> path == "/" + r
    ensures !PosixPath.IsAbsolute(path) ==> r == path
    ensures |r| == |path| || |r| == |path| - 1
  {
    if PosixPath.IsAbsolute(path) then path[1..] else path
  }

  lemma NormaliseRootStripsOnce()
    ensures NormaliseRoot("//a") == "/a"
    ensures NormaliseRoot("/a") == "a"
    ensures NormaliseRoot("a") == "a"
  {
  }

  // ---------------------------------------------------------------------------
  // The token endpoint

  const TokenEndpoint := "https://login.microsoftonline.com/common/oauth2/v2.0/token"
  const RedirectUri := "http://localhost"
  const Scope := "offline_access Files.Read.All profile openid"

  /** The form `refresh` posts to the token endpoint. */
  function RefreshForm(clientId: string, clientSecret: string, code: string, refreshToken: string): (form: map<string, string>)
    ensures form.Keys == {"client_id", "redirect_uri", "client_secret", "code", "grant_type", "scope", "refresh_token"}
    ensures form["client_id"] == clientId && form["client_secret"] == clientSecret
    ensures form["code"] == code && form["refresh_token"] == refreshToken
    ensures form["grant_type"] == "refresh_token" && form["redirect_uri"] == RedirectUri && form["scope"] == Scope
  {
    map["client_id" := clientId, "redirect_uri" := RedirectUri, "client_secret" := clientSecret,
        "code" := code, "grant_type" := "refresh_token", "scope" := Scope, "refresh_token" := refreshToken]
  }

  /**
   * What `refresh` makes of the token reply: the new access token when the
   * body has an "access_token" key, whatever the status code; otherwise it raises.
   */
  function TokenFrom(reply: Reply): (r: Outcome<string>)
    ensures r.Returned? <==> reply.Reply? && reply.body.Some? && reply.body.value.accessToken.Some?
    ensures r.Returned? ==> r.value == reply.body.value.accessToken.value
    ensures reply.NoReply? ==> r == Raised(ConnectionFailure)
    ensures reply.Reply? && reply.body.None? ==> r == Raised(NotJson)
    ensures reply.Reply? && reply.body.Some? && reply.body.value.accessToken.None? ==> r == Raised(TokenRefused)
  {
    match reply
    case NoReply => Raised(ConnectionFailure)
    case Reply(_, body) =>
      match body
      case None => Raised(NotJson)
      case Some(b) => if b.accessToken.Some? then Returned(b.accessToken.value) else Raised(TokenRefused)
  }

  /** The token an exchange issued: a token-endpoint exchange whose reply carries one. */
  function IssuedToken(e: Exchange): Option<string>
  {
    if e.request.TokenPost? && TokenFrom(e.reply).Returned? then Some(TokenFrom(e.reply).value) else None
  }

  /**
   * The access token a client should hold after the exchanges of `log`:
   * the one issued most recently, or "" if none was ever issued.
   */
  function LatestToken(log: seq<Exchange>): (t: string)
    ensures t == "" || exists i :: 0 <= i < |log| && IssuedToken(log[i]) == Some(t)
  {
    if log == [] then ""
    else
      match IssuedToken(log[|log| - 1])
      case Some(t) => t
      case None =>
        var t := LatestToken(log[..|log| - 1]);
        assert forall i :: 0 <= i < |log| - 1 ==> log[..|log| - 1][i] == log[i];
        t
  }

  lemma LatestTokenAppend(log: seq<Exchange>, since: nat, e: Exchange)
    requires since <= |log|
    ensures LatestToken((log + [e])[since..]) == if IssuedToken(e).Some? then IssuedToken(e).value else LatestToken(log[since..])
  {
    var s := (log + [e])[since..];
    assert s == log[since..] + [e];
    assert s[..|s| - 1] == log[since..];
  }

  // ---------------------------------------------------------------------------
  // URLs

  /** The Graph item address of the drive root. */
  const DriveRoot := "https://graph.microsoft.com/v1.0/me/drive/root"

  /** `is_folder`'s URL: the drive root itself for the empty path, else the item addressed by path. */
  function ItemUrl(remote: string): (url: string)
    ensures url == DriveRoot <==> remote == ""
    ensures remote != "" ==> url == DriveRoot + ":/" + remote
  {
    if remote == "" then DriveRoot else DriveRoot + ":/" + remote
  }

  /** `ls_folder`'s URL: the drive root's children for the empty path, else the children of the item. */
  function ChildrenUrl(remote: string): (url: string)
    ensures url == DriveRoot + "/children" <==> remote == ""
    ensures remote != "" ==> url == DriveRoot + ":/" + remote + ":/children"
  {
    if remote == "" then DriveRoot + "/children" else DriveRoot + ":/" + remote + ":/children"
  }

  /** `get_download_link`'s URL: always the item form, even for the empty path. */
  function DownloadUrl(remote: string): (url: string)
    ensures url == ItemUrl(remote) <==> remote != ""
    ensures remote == "" ==> url == DriveRoot + ":/"
  {
    DriveRoot + ":/" + remote
  }

  /** Distinct remote paths are looked up at distinct item URLs. */
  lemma ItemUrlInjective(a: string, b: string)
    ensures ItemUrl(a) == ItemUrl(b) ==> a == b
  {
    if ItemUrl(a) == ItemUrl(b) && a != "" && b != "" {
      var p := DriveRoot + ":/";
      assert ItemUrl(a)[|p|..] == a;
      assert ItemUrl(b)[|p|..] == b;
    }
  }

  /** Distinct remote paths are listed at distinct children URLs. */
  lemma ChildrenUrlInjective(a: string, b: string)
    ensures ChildrenUrl(a) == ChildrenUrl(b) ==> a == b
  {
    if ChildrenUrl(a) == ChildrenUrl(b) && a != "" && b != "" {
      var p := DriveRoot + ":/";
      var u := ChildrenUrl(a);
      assert |a| == |b|;
      assert u[|p|..|p| + |a|] == a;
      assert ChildrenUrl(b)[|p|..|p| + |b|] == b;
    }
  }

  // ---------------------------------------------------------------------------
  // Reply classification

  predicate IsNotFound(reply: Reply)
  {
    reply.Reply? && reply.status == 404
  }

  /** A reply past the shared checks: not a 404, a JSON body, no "error" key. */
  predicate IsUsable(reply: Reply)
  {
    reply.Reply? && reply.status != 404 && reply.body.Some? && !reply.body.value.hasError
  }

  /**
   * The checks all three operations make, in order: a 404 gives None
   * whatever the body says; otherwise a body that is not JSON or carries
   * an "error" key raises.
   */
  function Checked(reply: Reply): (r: Outcome<Option<Body>>)
    ensures r == Returned(None) <==> IsNotFound(reply)
    ensures r.Returned? && r.value.Some? <==> IsUsable(reply)
    ensures IsUsable(reply) ==> r == Returned(Some(reply.body.value))
    ensures reply.NoReply? ==> r == Raised(ConnectionFailure)
    ensures reply.Reply? && reply.status != 404 && reply.body.None? ==> r == Raised(NotJson)
    ensures reply.Reply? && reply.status != 404 && reply.body.Some? && reply.body.value.hasError ==> r == Raised(ProviderError)
  {
    match reply
    case NoReply => Raised(ConnectionFailure)
    case Reply(status, body) =>
      if status == 404 then Returned(None)
      else
        match body
        case None => Raised(NotJson)
        case Some(b) => if b.hasError then Raised(ProviderError) else Returned(Some(b))
  }

  /** `is_folder`'s reading of a metadata reply: None, True or False. */
  function ClassifyKind(reply: Reply): (r: Outcome<Option<bool>>)
    ensures r == Returned(None) <==> IsNotFound(reply)
    ensures r == Returned(Some(true)) <==> IsUsable(reply) && reply.body.value.hasFolder
    ensures r == Returned(Some(false)) <==> IsUsable(reply) && !reply.body.value.hasFolder
    ensures r.Raised? <==> Checked(reply).Raised?
    ensures r.Raised? ==> r.error == Checked(reply).error
  {
    match Checked(reply)
    case Raised(e) => Raised(e)
    case Returned(found) =>
      match found
      case None => Returned(None)
      case Some(b) => Returned(Some(b.hasFolder))
  }

  /** `int(float(size) / 1024)`: kibibytes, truncated toward zero. */
  function KiB(bytes: int): (k: int)
    ensures 0 <= bytes ==> 0 <= k && k * 1024 <= bytes < k * 1024 + 1024
    ensures bytes < 0 ==> k <= 0 && bytes <= k * 1024 && k * 1024 - 1024 < bytes
  {
    if bytes >= 0 then bytes / 1024 else -((-bytes) / 1024)
  }

  /** `s[0:10]`: the first ten characters, or all of a shorter string. */
  function DatePrefix(s: string): (d: string)
    ensures |d| == if |s| < 10 then |s| else 10
    ensures d == s[..|d|]
  {
    if |s| < 10 then s else s[..10]
  }

  /** One `FileInfo(...)` of the listing; the lookups run name, size, date. */
  function FileInfoOf(c: Child): (r: Outcome<FileInfo>)
    ensures r.Returned? <==> c.name.Some? && c.size.Some? && c.lastModifiedDateTime.Some?
    ensures r.Returned? ==> r.value.name == c.name.value && r.value.size == KiB(c.size.value)
    ensures r.Returned? ==> r.value.lastUpdateDate == DatePrefix(c.lastModifiedDateTime.value)
    ensures c.name.None? ==> r == Raised(MissingKey("name"))
    ensures c.name.Some? && c.size.None? ==> r == Raised(MissingKey("size"))
    ensures c.name.Some? && c.size.Some? && c.lastModifiedDateTime.None? ==> r == Raised(MissingKey("lastModifiedDateTime"))
  {
    if c.name.None? then Raised(MissingKey("name"))
    else if c.size.None? then Raised(MissingKey("size"))
    else if c.lastModifiedDateTime.None? then Raised(MissingKey("lastModifiedDateTime"))
    else Returned(FileInfo(c.name.value, KiB(c.size.value), DatePrefix(c.lastModifiedDateTime.value)))
  }

  /**
   * The list comprehension over the children: one entry per child, in
   * order, or the error of the first child that lacks a key.
   */
  function ListingOf(children: seq<Child>): (r: Outcome<seq<FileInfo>>)
    ensures r.Returned? <==> forall i :: 0 <= i < |children| ==> FileInfoOf(children[i]).Returned?
    ensures r.Returned? ==> |r.value| == |children|
    ensures r.Returned? ==> forall i :: 0 <= i < |children| ==> FileInfoOf(children[i]) == Returned(r.value[i])
    ensures r.Raised? ==> exists i :: 0 <= i < |children| && FileInfoOf(children[i]) == Raised(r.error)
                                     && forall j :: 0 <= j < i ==> FileInfoOf(children[j]).Returned?
  {
    if children == [] then Returned([])
    else
      match FileInfoOf(children[0])
      case Raised(e) => Raised(e)
      case Returned(f) =>
        var rest := ListingOf(children[1..]);
        assert forall i :: 1 <= i < |children| ==> children[1..][i - 1] == children[i];
        match rest
        case Raised(e) =>
          var i :| 0 <= i < |children[1..]| && FileInfoOf(children[1..][i]) == Raised(e)
                   && forall j :: 0 <= j < i ==> FileInfoOf(children[1..][j]).Returned?;
          assert FileInfoOf(children[i + 1]) == Raised(e);
          Raised(e)
        case Returned(fs) => Returned([f] + fs)
  }

  /** `ls_folder`'s reading of a children reply. */
  function ClassifyListing(reply: Reply): (r: Outcome<Option<seq<FileInfo>>>)
    ensures r == Returned(None) <==> IsNotFound(reply)
    ensures r.Returned? && r.value.Some? <==>
              IsUsable(reply) && reply.body.value.children.Some? && ListingOf(reply.body.value.children.value).Returned?
    ensures r.Returned? && r.value.Some? ==> |r.value.value| == |reply.body.value.children.value|
    ensures r.Returned? && r.value.Some? ==>
              forall i :: 0 <= i < |r.value.value| ==> FileInfoOf(reply.body.value.children.value[i]) == Returned(r.value.value[i])
    ensures IsUsable(reply) && reply.body.value.children.None? ==> r == Raised(MissingKey("value"))
    ensures IsUsable(reply) && reply.body.value.children.Some? && ListingOf(reply.body.value.children.value).Raised? ==>
              r == Raised(ListingOf(reply.body.value.children.value).error)
    ensures !IsNotFound(reply) && !IsUsable(reply) ==> r == Raised(Checked(reply).error)
  {
    match Checked(reply)
    case Raised(e) => Raised(e)
    case Returned(found) =>
      match found
      case None => Returned(None)
      case Some(b) =>
        match b.children
        case None => Raised(MissingKey("value"))
        case Some(cs) =>
          match ListingOf(cs)
          case Raised(e) => Raised(e)
          case Returned(fs) => Returned(Some(fs))
  }

  /** `get_download_link`'s reading of a metadata reply: the download URL, unchanged. */
  function ClassifyLink(reply: Reply): (r: Outcome<Option<string>>)
    ensures r == Returned(None) <==> IsNotFound(reply)
    ensures r.Returned? && r.value.Some? <==> IsUsable(reply) && reply.body.value.downloadUrl.Some?
    ensures r.Returned? && r.value.Some? ==> r.value.value == reply.body.value.downloadUrl.value
    ensures IsUsable(reply) && reply.body.value.downloadUrl.None? ==> r == Raised(MissingKey("@microsoft.graph.downloadUrl"))
    ensures !IsNotFound(reply) && !IsUsable(reply) ==> r == Raised(Checked(reply).error)
  {
    match Checked(reply)
    case Raised(e) => Raised(e)
    case Returned(found) =>
      match found
      case None => Returned(None)
      case Some(b) =>
        match b.downloadUrl
        case None => Raised(MissingKey("@microsoft.graph.downloadUrl"))
        case Some(url) => Returned(Some(url))
  }

  // ---------------------------------------------------------------------------
  // The retry-once-after-refresh wrapper, as a specification

  /** What a wrapped call did: its outcome, the exchanges it sent, the token it left, the replies still to come. */
  datatype Trace<T> = Trace(result: Outcome<T>, sent: seq<Exchange>, token: string, rest: seq<Reply>)

  /**
   * `_try_refresh` around one GET of `url` read by `classify`, holding
   * `token`, with the provider answering from `script`: call; if that
   * raises, refresh once and, if the refresh did not raise, call once more.
   */
  function Retried<T>(classify: Reply -> Outcome<T>, url: string, token: string,
                      form: map<string, string>, script: seq<Reply>): (t: Trace<T>)
    ensures 1 <= |t.sent| <= 3
    ensures t.sent[0] == Exchange(Get(url, token), Next(script))
    ensures |t.sent| == 1 <==> classify(Next(script)).Returned?
    ensures |t.sent| == 1 ==> t.result == classify(Next(script)) && t.token == token
    ensures 2 <= |t.sent| ==> t.sent[1] == Exchange(TokenPost(TokenEndpoint, form), Next(Rest(script)))
    ensures |t.sent| == 2 <==> classify(Next(script)).Raised? && TokenFrom(Next(Rest(script))).Raised?
    ensures |t.sent| == 2 ==> t.result == Raised(TokenFrom(t.sent[1].reply).error) && t.token == token
    ensures |t.sent| == 3 ==> TokenFrom(t.sent[1].reply).Returned? && t.token == TokenFrom(t.sent[1].reply).value
    ensures |t.sent| == 3 ==> t.sent[2] == Exchange(Get(url, t.token), Next(Rest(Rest(script))))
    ensures |t.sent| == 3 ==> t.result == classify(t.sent[2].reply)
  {
    var first := Next(script);
    var call := Exchange(Get(url, token), first);
    if classify(first).Returned? then
      Trace(classify(first), [call], token, Rest(script))
    else
      var afterCall := Rest(script);
      var post := Exchange(TokenPost(TokenEndpoint, form), Next(afterCall));
      match TokenFrom(Next(afterCall))
      case Raised(e) => Trace(Raised(e), [call, post], token, Rest(afterCall))
      case Returned(issued) =>
        var afterPost := Rest(afterCall);
        var second := Exchange(Get(url, issued), Next(afterPost));
        Trace(classify(Next(afterPost)), [call, post, second], issued, Rest(afterPost))
  }

  /** The number of calls (GETs) among the exchanges. */
  function Calls(sent: seq<Exchange>): nat
  {
    if sent == [] then 0 else (if sent[0].request.Get? then 1 else 0) + Calls(sent[1..])
  }

  /** The number of refreshes (token POSTs) among the exchanges. */
  function Refreshes(sent: seq<Exchange>): nat
  {
    if sent == [] then 0 else (if sent[0].request.TokenPost? then 1 else 0) + Refreshes(sent[1..])
  }

  /**
   * The wrapper never calls more than twice nor refreshes more than once;
   * it refreshes exactly when the first call raised, and calls a second
   * time exactly when that refresh succeeded.
   */
  lemma {:induction false} RetryCallBounds<T>(classify: Reply -> Outcome<T>, url: string, token: string,
                                              form: map<string, string>, script: seq<Reply>)
    ensures var t := Retried(classify, url, token, form, script);
      && 1 <= Calls(t.sent) <= 2 && Refreshes(t.sent) <= 1
      && (Refreshes(t.sent) == 1 <==> classify(Next(script)).Raised?)
      && (Calls(t.sent) == 2 <==> classify(Next(script)).Raised? && TokenFrom(Next(Rest(script))).Returned?)
  {
    var t := Retried(classify, url, token, form, script);
    var s := t.sent;
    assert Calls([]) == 0 && Refreshes([]) == 0;
    assert s[0].request.Get?;
    if |s| == 1 {
      assert s[1..] == [];
    } else if |s| == 2 {
      assert s[1..][1..] == [];
      assert Calls(s[1..]) == 0 && Refreshes(s[1..]) == 1;
    } else {
      var tail := s[1..][1..];
      assert tail[1..] == [] && tail[0] == s[2];
      assert Calls(tail) == 1 && Refreshes(tail) == 0;
      assert Calls(s[1..]) == 1 && Refreshes(s[1..]) == 1;
    }
  }

  /** An exchange that issues no token leaves the latest token as it was. */
  lemma LatestTokenAfterCall(log: seq<Exchange>, call: Exchange)
    requires IssuedToken(call).None?
    ensures LatestToken(log + [call]) == LatestToken(log)
  {
    LatestTokenAppend(log, 0, call);
    assert (log + [call])[0..] == log + [call] && log[0..] == log;
  }

  /** A call followed by a refresh that issued nothing leaves the latest token as it was. */
  lemma LatestTokenAfterFailedRefresh(log: seq<Exchange>, call: Exchange, post: Exchange)
    requires IssuedToken(call).None? && IssuedToken(post).None?
    ensures LatestToken(log + [call, post]) == LatestToken(log)
  {
    LatestTokenAfterCall(log, call);
    LatestTokenAfterCall(log + [call], post);
    assert log + [call] + [post] == log + [call, post];
  }

  /** A call, a refresh that issued `issued`, and a second call leave `issued` as the latest token. */
  lemma LatestTokenAfterRefresh(log: seq<Exchange>, call: Exchange, post: Exchange, second: Exchange, issued: string)
    requires IssuedToken(call).None? && IssuedToken(post) == Some(issued) && IssuedToken(second).None?
    ensures LatestToken(log + [call, post, second]) == issued
  {
    LatestTokenAppend(log + [call], 0, post);
    assert (log + [call])[0..] == log + [call] && log + [call] + [post] == log + [call, post];
    LatestTokenAfterCall(log + [call, post], second);
    assert log + [call, post] + [second] == log + [call, post, second];
  }

  /** The wrapper leaves the client holding the latest token issued in the log it extends. */
  lemma {:induction false} RetriedTracksLatestToken<T>(classify: Reply -> Outcome<T>, url: string, token: string,
                                                       form: map<string, string>, script: seq<Reply>, log: seq<Exchange>)
    requires LatestToken(log) == token
    ensures LatestToken(log + Retried(classify, url, token, form, script).sent) == Retried(classify, url, token, form, script).token
  {
    var t := Retried(classify, url, token, form, script);
    var s := t.sent;
    if |s| == 1 {
      assert s == [s[0]];
      LatestTokenAfterCall(log, s[0]);
    } else if |s| == 2 {
      assert s == [s[0], s[1]];
      LatestTokenAfterFailedRefresh(log, s[0], s[1]);
    } else {
      assert s == [s[0], s[1], s[2]];
      LatestTokenAfterRefresh(log, s[0], s[1], s[2], t.token);
    }
  }

  // ---------------------------------------------------------------------------
  // The client object

  /**
   * The credential holder and drive client. Only `accessToken` changes
   * after construction; the other fields are constants.
   */
  class OneDrive {
    const clientId: string
    const clientSecret: string
    const code: string
    const refreshToken: string
    const path: string
    var accessToken: string
    /** Where in the network's log this client's exchanges begin. */
    ghost const since: nat

    /** The access token is the one most recently issued to this client, or "" before any. */
    ghost predicate Valid(net: Network)
      reads this, net
    {
      since <= |net.log| && accessToken == LatestToken(net.log[since..])
    }

    /** The request `refresh` sends. */
    function RefreshRequest(): Request
    {
      TokenPost(TokenEndpoint, RefreshForm(clientId, clientSecret, code, refreshToken))
    }

    /** The fields of `__init__`, before its closing call to `refresh`. */
    constructor (clientId: string, clientSecret: string, code: string, refreshToken: string, path: string, net: Network)
      ensures this.clientId == clientId && this.clientSecret == clientSecret
      ensures this.code == code && this.refreshToken == refreshToken
      ensures this.path == NormaliseRoot(path)
      ensures accessToken == ""
      ensures Valid(net)
    {
      this.clientId := clientId;
      this.clientSecret := clientSecret;
      this.code := code;
      this.refreshToken := refreshToken;
      this.path := NormaliseRoot(path);
      accessToken := "";
      since := |net.log|;
    }

    /** Post the refresh token; take the new access token, or raise and keep the old one. */
    method Refresh(net: Network) returns (r: Outcome<()>)
      requires Valid(net)
      modifies this`accessToken, net
      ensures Valid(net)
      ensures net.log == old(net.log) + [Exchange(RefreshRequest(), Next(old(net.script)))]
      ensures net.script == Rest(old(net.script))
      ensures TokenFrom(Next(old(net.script))).Returned? ==>
                r == Returned(()) && accessToken == TokenFrom(Next(old(net.script))).value
      ensures TokenFrom(Next(old(net.script))).Raised? ==>
                r == Raised(TokenFrom(Next(old(net.script))).error) && accessToken == old(accessToken)
    {
      var reply := net.Send(RefreshRequest());
      LatestTokenAppend(old(net.log), since, Exchange(RefreshRequest(), reply));
      match TokenFrom(reply) {
        case Raised(e) =>
          r := Raised(e);
        case Returned(t) =>
          accessToken := t;
          r := Returned(());
      }
    }

    /** One GET with the current access token. */
    method Call(url: string, net: Network) returns (reply: Reply)
      requires Valid(net)
      modifies net
      ensures Valid(net)
      ensures reply == Next(old(net.script)) && net.script == Rest(old(net.script))
      ensures net.log == old(net.log) + [Exchange(Get(url, accessToken), reply)]
    {
      reply := net.Send(Get(url, accessToken));
      LatestTokenAppend(old(net.log), since, Exchange(Get(url, accessToken), reply));
    }

    /** `_try_refresh` around a GET of `url` whose reply `classify` reads. */
    method Retrying<T>(url: string, classify: Reply -> Outcome<T>, net: Network) returns (r: Outcome<T>)
      requires Valid(net)
      modifies this`accessToken, net
      ensures Valid(net)
      ensures var t := Retried(classify, url, old(accessToken), RefreshForm(clientId, clientSecret, code, refreshToken), old(net.script));
        r == t.result && accessToken == t.token && net.log == old(net.log) + t.sent && net.script == t.rest
    {
      var reply := Call(url, net);
      r := classify(reply);
      if r.Raised? {
        var refreshed := Refresh(net);
        if refreshed.Raised? {
          r := Raised(refreshed.error);
        } else {
          reply := Call(url, net);
          r := classify(reply);
        }
      }
    }

    /** `is_folder`: None for a missing path, True for a folder, False for a file. */
    method IsFolder(relative: string, net: Network) returns (r: Outcome<Option<bool>>)
      requires Valid(net)
      modifies this`accessToken, net
      ensures Valid(net)
      ensures var t := Retried(ClassifyKind, ItemUrl(PosixPath.Join(path, relative)), old(accessToken),
                               RefreshForm(clientId, clientSecret, code, refreshToken), old(net.script));
        r == t.result && accessToken == t.token && net.log == old(net.log) + t.sent && net.script == t.rest
    {
      r := Retrying(ItemUrl(PosixPath.Join(path, relative)), ClassifyKind, net);
    }

    /** `ls_folder`: None for a missing path, else the listing of its children. */
    method LsFolder(relative: string, net: Network) returns (r: Outcome<Option<seq<FileInfo>>>)
      requires Valid(net)
      modifies this`accessToken, net
      ensures Valid(net)
      ensures var t := Retried(ClassifyListing, ChildrenUrl(PosixPath.Join(path, relative)), old(accessToken),
                               RefreshForm(clientId, clientSecret, code, refreshToken), old(net.script));
        r == t.result && accessToken == t.token && net.log == old(net.log) + t.sent && net.script == t.rest
    {
      r := Retrying(ChildrenUrl(PosixPath.Join(path, relative)), ClassifyListing, net);
    }

    /** `get_download_link`: None for a missing path, else the provider's download URL. */
    method GetDownloadLink(fileName: string, net: Network) returns (r: Outcome<Option<string>>)
      requires Valid(net)
      modifies this`accessToken, net
      ensures Valid(net)
      ensures var t := Retried(ClassifyLink, DownloadUrl(PosixPath.Join(path, fileName)), old(accessToken),
                               RefreshForm(clientId, clientSecret, code, refreshToken), old(net.script));
        r == t.result && accessToken == t.token && net.log == old(net.log) + t.sent && net.script == t.rest
    {
      r := Retrying(DownloadUrl(PosixPath.Join(path, fileName)), ClassifyLink, net);
    }
  }

  /** `OneDrive(...)`: set the fields, then refresh; a refused refresh raises out of construction. */
  method Open(clientId: string, clientSecret: string, code: string, refreshToken: string, path: string, net: Network)
    returns (r: Outcome<OneDrive>)
    modifies net
    ensures net.log == old(net.log) + [Exchange(TokenPost(TokenEndpoint, RefreshForm(clientId, clientSecret, code, refreshToken)),
                                                Next(old(net.script)))]
    ensures net.script == Rest(old(net.script))
    ensures r.Returned? <==> TokenFrom(Next(old(net.script))).Returned?
    ensures r.Raised? ==> r.error == TokenFrom(Next(old(net.script))).error
    ensures r.Returned? ==> fresh(r.value) && r.value.Valid(net) && r.value.path == NormaliseRoot(path)
    ensures r.Returned? ==> r.value.clientId == clientId && r.value.clientSecret == clientSecret
    ensures r.Returned? ==> r.value.code == code && r.value.refreshToken == refreshToken
    ensures r.Returned? ==> r.value.accessToken == TokenFrom(Next(old(net.script))).value
  {
    var client := new OneDrive(clientId, clientSecret, code, refreshToken, path, net);
    var refreshed := client.Refresh(net);
    if refreshed.Raised? {
      r := Raised(refreshed.error);
    } else {
      r := Returned(client);
    }
  }

  /** `init_from_dict`: read the five keys, then construct; a missing key raises before any request. */
  method InitFromDict(kv: map<string, string>, net: Network) returns (r: Outcome<OneDrive>)
    modifies net
    ensures ReadConfig(kv).Raised? ==>
              r == Raised(ReadConfig(kv).error) && net.log == old(net.log) && net.script == old(net.script)
    ensures ReadConfig(kv).Returned? ==>
              var c := ReadConfig(kv).value;
              && net.log == old(net.log) + [Exchange(TokenPost(TokenEndpoint, RefreshForm(c.clientId, c.clientSecret, c.code, c.refreshToken)),
                                                     Next(old(net.script)))]
              && net.script == Rest(old(net.script))
              && (r.Returned? <==> TokenFrom(Next(old(net.script))).Returned?)
              && (r.Raised? ==> r.error == TokenFrom(Next(old(net.script))).error)
    ensures r.Returned? ==> ReadConfig(kv).Returned? && fresh(r.value) && r.value.Valid(net)
    ensures r.Returned? ==> r.value.clientId == kv["client_id"] && r.value.clientSecret == kv["client_secret"]
    ensures r.Returned? ==> r.value.code == kv["code"] && r.value.refreshToken == kv["refresh_token"]
    ensures r.Returned? ==> r.value.path == NormaliseRoot(kv["path"])
    ensures r.Returned? ==> r.value.accessToken == TokenFrom(Next(old(net.script))).value
  {
    match ReadConfig(kv) {
      case Raised(e) =>
        r := Raised(e);
      case Returned(c) =>
        r := Open(c.clientId, c.clientSecret, c.code, c.refreshToken, c.path, net);
    }
  }
}
