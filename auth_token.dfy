/** The bearer-token lookup of the web front end (services/authToken.ts): a
    fixed precedence over the browser's local and session storage, ending in
    the OIDC client's stored session, with the token found there written back
    to local storage. Storage is modelled as two string maps; the two
    environment variables, whether a browser window exists, and `JSON.parse`
    on the OIDC record are parameters. */
module AuthToken {
  import opened Wrappers

  /** What `JSON.parse` makes of the stored OIDC record: an exception, or the
      record's `id_token` and `access_token` (absent or null as `None`). */
  datatype OidcParse = Unparseable | OidcRecord(idToken: Option<string>, accessToken: Option<string>)

  /** The token returned and local storage afterwards. */
  datatype Lookup = Lookup(token: Option<string>, local: map<string, string>)

  /** `storage.getItem(key)`. */
  function Get(storage: map<string, string>, key: string): (v: Option<string>)
    ensures v.Some? <==> key in storage
    ensures v.Some? ==> v.value == storage[key]
  {
    if key in storage then Some(storage[key]) else None
  }

  /** `local.getItem("token") ?? local.getItem("accessToken")`: the access
      token is read only when "token" is absent, not when it is empty. */
  function Cached(local: map<string, string>): (c: Option<string>)
    ensures "token" in local ==> c == Some(local["token"])
    ensures "token" !in local ==> c == Get(local, "accessToken")
  {
    if "token" in local then Some(local["token"]) else Get(local, "accessToken")
  }

  /** The OIDC client's storage key for the given authority and client id. */
  function OidcKey(authority: string, clientId: string): (k: string)
    ensures |k| == 10 + |authority| + 1 + |clientId|
    ensures k[..10] == "oidc.user:"
    ensures k[10..10 + |authority|] == authority && k[10 + |authority|] == ':'
    ensures k[11 + |authority|..] == clientId
  {
    "oidc.user:" + authority + ":" + clientId
  }

  /** `session.getItem(key) || local.getItem(key)`. */
  function OidcRecordText(session: map<string, string>, local: map<string, string>, key: string): (v: Option<string>)
    ensures Truthy(Get(session, key)) ==> v == Get(session, key)
    ensures !Truthy(Get(session, key)) ==> v == Get(local, key)
  {
    if Truthy(Get(session, key)) then Get(session, key) else Get(local, key)
  }

  /** The whole lookup as a function of the storage it starts from. */
  function TokenLookup(windowDefined: bool, local: map<string, string>, session: map<string, string>,
                       authority: Option<string>, clientId: Option<string>, parse: string -> OidcParse): (l: Lookup)
    ensures l.token.Some? ==> l.token.value != ""
    ensures !windowDefined ==> l == Lookup(None, local)
    ensures windowDefined && Truthy(Get(local, "idToken")) ==> l == Lookup(Get(local, "idToken"), local)
    ensures windowDefined && !Truthy(Get(local, "idToken")) && Truthy(Cached(local)) ==> l == Lookup(Cached(local), local)
    ensures (windowDefined && !Truthy(Get(local, "idToken")) && !Truthy(Cached(local))
             && (!Truthy(authority) || !Truthy(clientId))) ==> l == Lookup(None, local)
    ensures l.local != local ==>
      l.token.Some? && "token" in l.local && l.local["token"] == l.token.value &&
      ((l.local == local["idToken" := l.token.value]["token" := l.token.value]) ||
       (l.local == local["accessToken" := l.token.value]["token" := l.token.value]))
    ensures windowDefined && !Truthy(Get(local, "idToken")) && !Truthy(Cached(local))
            && Truthy(authority) && Truthy(clientId) ==>
      var text := OidcRecordText(session, local, OidcKey(authority.value, clientId.value));
      && (!Truthy(text) ==> l == Lookup(None, local))
      && (Truthy(text) && parse(text.value).Unparseable? ==> l == Lookup(None, local))
      && (Truthy(text) && parse(text.value).OidcRecord? ==>
            var rec := parse(text.value);
            && (Truthy(rec.idToken) ==>
                  l == Lookup(rec.idToken, local["idToken" := rec.idToken.value]["token" := rec.idToken.value]))
            && (!Truthy(rec.idToken) && Truthy(rec.accessToken) ==>
                  l == Lookup(rec.accessToken, local["accessToken" := rec.accessToken.value]["token" := rec.accessToken.value]))
            && (!Truthy(rec.idToken) && !Truthy(rec.accessToken) ==> l == Lookup(None, local)))
  {
    if !windowDefined then Lookup(None, local)
    else if Truthy(Get(local, "idToken")) then Lookup(Get(local, "idToken"), local)
    else if Truthy(Cached(local)) then Lookup(Cached(local), local)
    else if !Truthy(authority) || !Truthy(clientId) then Lookup(None, local)
    else
      var text := OidcRecordText(session, local, OidcKey(authority.value, clientId.value));
      if !Truthy(text) then Lookup(None, local)
      else match parse(text.value)
        case Unparseable => Lookup(None, local)
        case OidcRecord(idToken, accessToken) =>
          if Truthy(idToken) then Lookup(idToken, local["idToken" := idToken.value]["token" := idToken.value])
          else if Truthy(accessToken) then Lookup(accessToken, local["accessToken" := accessToken.value]["token" := accessToken.value])
          else Lookup(None, local)
  }

  /** An empty "token" entry hides a stored "accessToken": with no id token
      and no OIDC configuration the lookup finds nothing. */
  lemma EmptyTokenShadowsAccessToken(local: map<string, string>, session: map<string, string>, parse: string -> OidcParse)
    requires "idToken" !in local && "token" in local && local["token"] == ""
    requires "accessToken" in local && local["accessToken"] != ""
    ensures TokenLookup(true, local, session, None, None, parse).token == None
  {
  }

  /** The OIDC record in session storage wins over the one in local storage. */
  lemma SessionRecordWins(local: map<string, string>, session: map<string, string>,
                          authority: string, clientId: string, parse: string -> OidcParse)
    requires !Truthy(Get(local, "idToken")) && !Truthy(Cached(local))
    requires authority != "" && clientId != ""
    requires Truthy(Get(session, OidcKey(authority, clientId)))
    requires parse(session[OidcKey(authority, clientId)]).OidcRecord?
    requires Truthy(parse(session[OidcKey(authority, clientId)]).idToken)
    ensures TokenLookup(true, local, session, Some(authority), Some(clientId), parse).token
            == parse(session[OidcKey(authority, clientId)]).idToken
  {
  }

  /** The write-back makes the lookup stable: repeating it on the storage it
      leaves returns the same token from the cache and writes nothing more. */
  lemma WriteBackIsStable(local: map<string, string>, session: map<string, string>,
                           authority: Option<string>, clientId: Option<string>,
                           parse: string -> OidcParse)
    requires TokenLookup(true, local, session, authority, clientId, parse).token.Some?
    ensures var l := TokenLookup(true, local, session, authority, clientId, parse);
      TokenLookup(true, l.local, session, authority, clientId, parse) == l
  {
  }

  /** The browser's two storage areas. */
  class BrowserStorage {
    var local: map<string, string>
    var session: map<string, string>

    constructor (local: map<string, string>, session: map<string, string>)
      ensures this.local == local && this.session == session
    {
      this.local := local;
      this.session := session;
    }

    /** `getAccessToken`: reads in the fixed order, returns the first truthy
        token, and writes an OIDC token back to local storage. */
    method GetAccessToken(windowDefined: bool, authority: Option<string>, clientId: Option<string>,
                          parse: string -> OidcParse) returns (token: Option<string>)
      modifies this
      ensures Lookup(token, local) == TokenLookup(windowDefined, old(local), old(session), authority, clientId, parse)
      ensures session == old(session)
    {
      if !windowDefined {
        return None;
      }
      var storedIdToken := Get(local, "idToken");
      if Truthy(storedIdToken) {
        return storedIdToken;
      }
      var cachedToken := if "token" in local then Some(local["token"]) else Get(local, "accessToken");
      if Truthy(cachedToken) {
        return cachedToken;
      }
      if !Truthy(authority) || !Truthy(clientId) {
        return None;
      }
      var key := OidcKey(authority.value, clientId.value);
      var oidcUser := if Truthy(Get(session, key)) then Get(session, key) else Get(local, key);
      if !Truthy(oidcUser) {
        return None;
      }
      match parse(oidcUser.value)
      case Unparseable =>
        token := None;
      case OidcRecord(idToken, accessToken) =>
        if Truthy(idToken) {
          local := local["idToken" := idToken.value];
          local := local["token" := idToken.value];
          token := idToken;
        } else if Truthy(accessToken) {
          local := local["accessToken" := accessToken.value];
          local := local["token" := accessToken.value];
          token := accessToken;
        } else {
          token := None;
        }
    }
  }
}
