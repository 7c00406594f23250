/**
  The flat key space (server/store/service.go and session.go). A string stands for the bytes of a
  key, one character a byte, as the documentation of the format requires ASCII.
 */
module Keys {
  import opened Wrappers
  import opened Strings
  import opened Bindings
  import opened Records

  const KV_APP_PREFIX := ".k"
  const KV_USER_PREFIX := ".u"
  const KV_OAUTH2_STATE_PREFIX := ".o"
  const KV_TOKEN_PREFIX := ".t"
  const KV_SUB_PREFIX := "sub."
  const KV_INSTALLED_APP_PREFIX := "app."
  const KV_LOCAL_MANIFEST_PREFIX := "man."
  const KV_DEBUG_PREFIX := ".debug."
  const KV_CALL_ONCE_KEY := "CallOnce"
  const KV_CLUSTER_MUTEX_KEY := "Cluster_Mutex"

  const MAX_APP_ID_LENGTH := 32
  const USER_ID_LENGTH := 26
  const ID_HASH_LENGTH := 20
  const HASHKEY_LENGTH := 82

  // ---------------------------------------------------------------- hashkeys

  datatype KeyError =
    | NamespaceTooLong | EmptyKey | BadAppID | BadUserID | BadGlobalNamespace | BadLength

  /** SHAKE128 cut to 16 bytes and encoded as ascii85 into a buffer of 20. */
  ghost predicate FixedWidth(idhash: string -> string) {
    forall k :: |idhash(k)| == ID_HASH_LENGTH
  }

  function Spaces(n: nat): string {
    seq(n, i => ' ')
  }

  function Pad(s: string, width: nat): string {
    if |s| < width then s + Spaces(width - |s|) else s
  }

  function HashkeyOf(idhash: string -> string, gns: string, appID: AppID, userID: UserID, ns: string, key: string)
    : Result<string, KeyError>
  {
    if |ns| > 2 then Err(NamespaceTooLong)
    else if key == "" then Err(EmptyKey)
    else if |appID| > MAX_APP_ID_LENGTH then Err(BadAppID)
    else if |userID| != USER_ID_LENGTH then Err(BadUserID)
    else if |gns| != 2 || gns[0] != '.' then Err(BadGlobalNamespace)
    else
      var hashed := gns + Pad(appID, MAX_APP_ID_LENGTH) + userID + Pad(ns, 2) + idhash(key);
      if |hashed| != HASHKEY_LENGTH then Err(BadLength) else Ok(hashed)
  }

  method Hashkey(idhash: string -> string, gns: string, appID: AppID, userID: UserID, appNamespace: string, key: string)
    returns (r: Result<string, KeyError>)
    ensures r == HashkeyOf(idhash, gns, appID, userID, appNamespace, key)
  {
    var a := appID;
    while |a| < MAX_APP_ID_LENGTH
      invariant |a| >= |appID| && a == appID + Spaces(|a| - |appID|)
      invariant |appID| <= MAX_APP_ID_LENGTH ==> |a| <= MAX_APP_ID_LENGTH
      decreases MAX_APP_ID_LENGTH - |a|
    {
      a := a + [' '];
    }
    assert |appID| < MAX_APP_ID_LENGTH ==> a == Pad(appID, MAX_APP_ID_LENGTH);

    var ns := appNamespace;
    if |ns| == 0 {
      ns := [' ', ' '];
    } else if |ns| == 1 {
      ns := [ns[0], ' '];
    } else if |ns| > 2 {
      return Err(NamespaceTooLong);
    }
    assert ns == Pad(appNamespace, 2);

    if |key| == 0 {
      return Err(EmptyKey);
    } else if |a| != MAX_APP_ID_LENGTH {
      return Err(BadAppID);
    } else if |userID| != USER_ID_LENGTH {
      return Err(BadUserID);
    } else if |gns| != 2 || gns[0] != '.' {
      return Err(BadGlobalNamespace);
    }

    var hashed: string := [];
    hashed := hashed + gns;
    hashed := hashed + a;
    hashed := hashed + userID;
    hashed := hashed + ns;
    hashed := hashed + idhash(key);
    assert hashed == gns + a + userID + ns + idhash(key);
    assert a == Pad(appID, MAX_APP_ID_LENGTH);
    if |hashed| != HASHKEY_LENGTH {
      return Err(BadLength);
    }
    return Ok(hashed);
  }

  datatype Parsed = Parsed(gns: string, appID: AppID, userID: UserID, ns: string, idhash: string)

  function ParseHashkey(key: string): Option<Parsed> {
    if |key| != HASHKEY_LENGTH then None
    else Some(Parsed(key[0..2], TrimSpace(key[2..34]), key[34..60], TrimSpace(key[60..62]), key[62..82]))
  }

  lemma {:induction false} TrimRightOfSpaces(s: string, n: nat)
    ensures TrimRight(s + Spaces(n)) == TrimRight(s)
    decreases n
  {
    var p := s + Spaces(n);
    if n == 0 {
      assert p == s;
    } else {
      assert p[..|p| - 1] == s + Spaces(n - 1);
      TrimRightOfSpaces(s, n - 1);
    }
  }

  lemma {:induction false} TrimSpaceOfPadding(s: string, n: nat)
    ensures TrimSpace(s + Spaces(n)) == TrimSpace(s)
  {
    if s == [] {
      assert s + Spaces(n) == Spaces(n);
      AllSpaces(n);
    } else if IsSpace(s[0]) {
      assert (s + Spaces(n))[1..] == s[1..] + Spaces(n);
      TrimSpaceOfPadding(s[1..], n);
    } else {
      TrimRightOfSpaces(s, n);
    }
  }

  lemma {:induction false} AllSpaces(n: nat)
    ensures TrimLeft(Spaces(n)) == ""
    decreases n
  {
    if n > 0 {
      assert Spaces(n)[1..] == Spaces(n - 1);
      AllSpaces(n - 1);
    }
  }

  lemma TrimSpaceOfPad(s: string, width: nat)
    ensures TrimSpace(Pad(s, width)) == TrimSpace(s)
  {
    if |s| < width {
      TrimSpaceOfPadding(s, width - |s|);
    }
  }

  /** Where the parts of a hashkey are. */
  lemma HashkeyParts(idhash: string -> string, gns: string, appID: AppID, userID: UserID, ns: string, key: string)
    requires FixedWidth(idhash) && HashkeyOf(idhash, gns, appID, userID, ns, key).Ok?
    ensures var k := HashkeyOf(idhash, gns, appID, userID, ns, key).value;
            && |k| == 82
            && k[0..2] == gns && k[2..34] == Pad(appID, MAX_APP_ID_LENGTH) && k[34..60] == userID
            && k[60..62] == Pad(ns, 2) && k[62..82] == idhash(key)
  {
    assert |idhash(key)| == ID_HASH_LENGTH;
  }

  /** Only the stated errors: with a fixed-width hash, every well-formed request gets a key of 82 bytes. */
  lemma HashkeyDefined(idhash: string -> string, gns: string, appID: AppID, userID: UserID, ns: string, key: string)
    requires FixedWidth(idhash)
    ensures HashkeyOf(idhash, gns, appID, userID, ns, key).Ok? <==>
            && |ns| <= 2 && key != "" && |appID| <= 32 && |userID| == 26
            && |gns| == 2 && gns[0] == '.'
  {
    assert |idhash(key)| == ID_HASH_LENGTH;
  }

  /** Every other request gets the error of the first check that it fails. */
  lemma HashkeyErrors(idhash: string -> string, gns: string, appID: AppID, userID: UserID, ns: string, key: string)
    requires FixedWidth(idhash)
    ensures var r := HashkeyOf(idhash, gns, appID, userID, ns, key);
            && (r == Err(NamespaceTooLong) <==> |ns| > 2)
            && (r == Err(EmptyKey) <==> |ns| <= 2 && key == "")
            && (r == Err(BadAppID) <==> |ns| <= 2 && key != "" && |appID| > 32)
            && (r == Err(BadUserID) <==> |ns| <= 2 && key != "" && |appID| <= 32 && |userID| != 26)
            && (r == Err(BadGlobalNamespace) <==>
                |ns| <= 2 && key != "" && |appID| <= 32 && |userID| == 26 && !(|gns| == 2 && gns[0] == '.'))
            && r != Err(BadLength)
  {
    assert |idhash(key)| == ID_HASH_LENGTH;
  }

  /** Parsing undoes hashing exactly when the app ID and the namespace have no surrounding whitespace. */
  lemma ParseUndoesHashkey(
      idhash: string -> string, gns: string, appID: AppID, userID: UserID, ns: string, key: string)
    requires FixedWidth(idhash) && HashkeyOf(idhash, gns, appID, userID, ns, key).Ok?
    ensures ParseHashkey(HashkeyOf(idhash, gns, appID, userID, ns, key).value) ==
              Some(Parsed(gns, TrimSpace(appID), userID, TrimSpace(ns), idhash(key)))
    ensures ParseHashkey(HashkeyOf(idhash, gns, appID, userID, ns, key).value) ==
              Some(Parsed(gns, appID, userID, ns, idhash(key)))
            <==> Trimmed(appID) && Trimmed(ns)
  {
    HashkeyParts(idhash, gns, appID, userID, ns, key);
    TrimSpaceOfPad(appID, MAX_APP_ID_LENGTH);
    TrimSpaceOfPad(ns, 2);
    TrimSpaceProperties(appID);
    TrimSpaceProperties(ns);
  }

  /** Two requests share a hashkey only if they agree on everything but the hashed id. */
  lemma HashkeyInjective(
      idhash: string -> string,
      gns: string, appID: AppID, userID: UserID, ns: string, key: string,
      gns': string, appID': AppID, userID': UserID, ns': string, key': string)
    requires FixedWidth(idhash)
    requires HashkeyOf(idhash, gns, appID, userID, ns, key).Ok?
    requires HashkeyOf(idhash, gns, appID, userID, ns, key) == HashkeyOf(idhash, gns', appID', userID', ns', key')
    requires Trimmed(appID) && Trimmed(appID') && Trimmed(ns) && Trimmed(ns')
    ensures gns == gns' && appID == appID' && userID == userID' && ns == ns' && idhash(key) == idhash(key')
  {
    ParseUndoesHashkey(idhash, gns, appID, userID, ns, key);
    ParseUndoesHashkey(idhash, gns', appID', userID', ns', key');
  }

  // ---------------------------------------------------------------- session keys

  function AppKey(appID: AppID): string {
    KV_TOKEN_PREFIX + "_" + appID
  }

  function SessionKey(appID: AppID, userID: UserID): string {
    AppKey(appID) + "_" + userID
  }

  /** strings.Split(s, "_") */
  function Split(s: string): (r: seq<string>)
    ensures |r| >= 1
  {
    if s == [] then [""]
    else
      var rest := Split(s[1..]);
      if s[0] == '_' then [""] + rest else [[s[0]] + rest[0]] + rest[1..]
  }

  function ParseSessionKey(key: string): Option<(AppID, UserID)> {
    var s := Split(key);
    if |s| != 3 || s[0] != KV_TOKEN_PREFIX then None else Some((s[1], s[2]))
  }

  lemma {:induction false} SplitNone(s: string)
    ensures Split(s) == [s] <==> '_' !in s
    ensures |Split(s)| == 1 <==> '_' !in s
  {
    if s != [] {
      SplitNone(s[1..]);
      assert s == [s[0]] + s[1..];
    }
  }

  lemma {:induction false} SplitFirst(x: string, y: string)
    requires '_' !in x
    ensures Split(x + "_" + y) == [x] + Split(y)
  {
    var s := x + "_" + y;
    if x == [] {
      assert s[1..] == y;
    } else {
      assert s[1..] == x[1..] + "_" + y;
      SplitFirst(x[1..], y);
      assert [s[0]] + x[1..] == x;
    }
  }

  function Join(parts: seq<string>): string
    requires parts != []
  {
    if |parts| == 1 then parts[0] else parts[0] + "_" + Join(parts[1..])
  }

  lemma {:induction false} JoinUndoesSplit(s: string)
    ensures Join(Split(s)) == s
    ensures forall i :: 0 <= i < |Split(s)| ==> '_' !in Split(s)[i]
  {
    if s != [] {
      var rest := Split(s[1..]);
      JoinUndoesSplit(s[1..]);
      if s[0] == '_' {
        assert Split(s)[1..] == rest;
        assert [] + "_" + s[1..] == s;
      } else {
        var head := [s[0]] + rest[0];
        assert Split(s)[1..] == rest[1..];
        if |rest| > 1 {
          assert head + "_" + Join(rest[1..]) == [s[0]] + (rest[0] + "_" + Join(rest[1..]));
        }
        assert Join(Split(s)) == [s[0]] + s[1..];
      }
    }
  }

  lemma {:induction false} SplitCount(x: string, y: string)
    ensures |Split(x + "_" + y)| == |Split(x)| + |Split(y)|
  {
    var s := x + "_" + y;
    if x == [] {
      assert s[1..] == y;
    } else {
      assert s[1..] == x[1..] + "_" + y;
      SplitCount(x[1..], y);
    }
  }

  /** A session key can be parsed exactly when neither ID contains an underscore; app IDs may. */
  lemma ParseUndoesSessionKey(appID: AppID, userID: UserID)
    ensures ParseSessionKey(SessionKey(appID, userID)) ==
            if '_' !in appID && '_' !in userID then Some((appID, userID)) else None
  {
    assert SessionKey(appID, userID) == KV_TOKEN_PREFIX + "_" + (appID + "_" + userID);
    SplitFirst(KV_TOKEN_PREFIX, appID + "_" + userID);
    SplitNone(appID);
    SplitNone(userID);
    SplitCount(appID, userID);
    if '_' !in appID {
      SplitFirst(appID, userID);
    }
  }

  /** Whatever parses is a session key. */
  lemma SessionKeyUndoesParse(key: string)
    requires ParseSessionKey(key).Some?
    ensures SessionKey(ParseSessionKey(key).value.0, ParseSessionKey(key).value.1) == key
  {
    var s := Split(key);
    JoinUndoesSplit(key);
    assert s == [s[0], s[1], s[2]];
    assert s[1..] == [s[1], s[2]] && s[1..][1..] == [s[2]];
    assert Join(s[1..]) == s[1] + "_" + s[2];
    assert Join(s) == s[0] + "_" + (s[1] + "_" + s[2]);
  }

  /** User IDs contain no underscore, so session keys do not clash, whatever the app IDs. */
  lemma SessionKeyInjective(a: AppID, u: UserID, b: AppID, v: UserID)
    requires '_' !in u && '_' !in v && SessionKey(a, u) == SessionKey(b, v)
    ensures a == b && u == v
  {
    var k, n := SessionKey(a, u), |SessionKey(a, u)|;
    assert k == AppKey(a) + "_" + u && k == AppKey(b) + "_" + v;
    assert k[n - |u| - 1] == '_' && k[n - |v| - 1] == '_';
    assert k[n - |u|..] == u && k[n - |v|..] == v;
    assert forall i :: n - |u| <= i < n ==> k[i] == u[i - (n - |u|)];
    assert forall i :: n - |v| <= i < n ==> k[i] == v[i - (n - |v|)];
    assert |u| == |v|;
    assert k[3..n - |u| - 1] == a && k[3..n - |v| - 1] == b;
  }

  /** The prefix match of listKeysForApp, spelled out. */
  lemma AppKeyPrefix(a: AppID, b: AppID, u: UserID)
    ensures HasPrefix(SessionKey(b, u), AppKey(a)) <==> a <= b + "_" + u
    ensures '_' !in a ==> (HasPrefix(SessionKey(b, u), AppKey(a)) <==> a <= b)
  {
    var t, bu := KV_TOKEN_PREFIX + "_", b + "_" + u;
    assert SessionKey(b, u) == t + bu && AppKey(a) == t + a;
    PrefixCancels(t, a, bu);
    assert bu[|b|] == '_' && bu[..|b|] == b;
    if a <= bu {
      assert a == bu[..|a|];
    }
  }

  lemma PrefixCancels(t: string, x: string, y: string)
    ensures t + x <= t + y <==> x <= y
  {
    if x <= y {
      assert (t + y)[..|t + x|] == t + y[..|x|];
    }
    if t + x <= t + y {
      assert x == (t + x)[|t|..] && y == (t + y)[|t|..];
      assert (t + y)[..|t + x|] == t + x;
      assert y[..|x|] == (t + y)[..|t + x|][|t|..];
    }
  }

  // ---------------------------------------------------------------- the namespaces

  /** What kind of key this is; the kinds of the flat namespace. */
  predicate IsHashkey(key: string) {
    |key| == HASHKEY_LENGTH && (HasPrefix(key, KV_APP_PREFIX) || HasPrefix(key, KV_USER_PREFIX))
  }

  predicate IsSessionKey(key: string) {
    HasPrefix(key, KV_TOKEN_PREFIX)
  }

  predicate IsStateKey(key: string) {
    HasPrefix(key, KV_OAUTH2_STATE_PREFIX)
  }

  predicate IsSubsKey(key: string) {
    HasPrefix(key, KV_SUB_PREFIX)
  }

  predicate IsAppRecordKey(key: string) {
    HasPrefix(key, KV_INSTALLED_APP_PREFIX)
  }

  predicate IsManifestKey(key: string) {
    HasPrefix(key, KV_LOCAL_MANIFEST_PREFIX)
  }

  predicate IsSyncKey(key: string) {
    key == KV_CALL_ONCE_KEY || key == KV_CLUSTER_MUTEX_KEY
  }

  function KindsOf(key: string): seq<bool> {
    [IsHashkey(key), IsSessionKey(key), IsStateKey(key), IsSubsKey(key), IsAppRecordKey(key), IsManifestKey(key),
     IsSyncKey(key)]
  }

  function Tag(key: string): string {
    if |key| < 2 then key else key[..2]
  }

  lemma TagOfPrefix(key: string, prefix: string)
    requires |prefix| >= 2
    ensures HasPrefix(key, prefix) ==> Tag(key) == prefix[..2]
  {
    if HasPrefix(key, prefix) {
      assert key[..2] == prefix[..2];
    }
  }

  lemma KindTag(key: string, i: nat)
    requires i < 7 && KindsOf(key)[i]
    ensures Tag(key) in [{".k", ".u"}, {".t"}, {".o"}, {"su"}, {"ap"}, {"ma"}, {"Ca", "Cl"}][i]
  {
    TagOfPrefix(key, KV_APP_PREFIX);
    TagOfPrefix(key, KV_USER_PREFIX);
    TagOfPrefix(key, KV_TOKEN_PREFIX);
    TagOfPrefix(key, KV_OAUTH2_STATE_PREFIX);
    TagOfPrefix(key, KV_SUB_PREFIX);
    TagOfPrefix(key, KV_INSTALLED_APP_PREFIX);
    TagOfPrefix(key, KV_LOCAL_MANIFEST_PREFIX);
    assert KV_APP_PREFIX[..2] == ".k" && KV_USER_PREFIX[..2] == ".u" && KV_TOKEN_PREFIX[..2] == ".t";
    assert KV_OAUTH2_STATE_PREFIX[..2] == ".o" && KV_SUB_PREFIX[..2] == "su";
    assert KV_INSTALLED_APP_PREFIX[..2] == "ap" && KV_LOCAL_MANIFEST_PREFIX[..2] == "ma";
    assert KV_CALL_ONCE_KEY[..2] == "Ca" && KV_CLUSTER_MUTEX_KEY[..2] == "Cl";
  }

  /** No key is of two kinds. */
  lemma NamespacesDisjoint(key: string, i: nat, j: nat)
    requires i < 7 && j < 7 && KindsOf(key)[i] && KindsOf(key)[j]
    ensures i == j
  {
    KindTag(key, i);
    KindTag(key, j);
  }

  /** The texts of the keys: which prefixes tell the kinds apart, and what the stores put behind them. */
  lemma KeyFormats(key: string, appID: AppID, userID: UserID)
    ensures IsHashkey(key) <==> |key| == 82 && (key[..2] == ".k" || key[..2] == ".u")
    ensures ParseHashkey(key).Some? <==> |key| == 82
    ensures SessionKey(appID, userID) == ".t_" + appID + "_" + userID
    ensures IsSessionKey(key) <==> ".t" <= key
    ensures IsStateKey(key) <==> ".o" <= key
    ensures IsSubsKey(key) <==> "sub." <= key
    ensures IsAppRecordKey(key) <==> "app." <= key
    ensures IsManifestKey(key) <==> "man." <= key
    ensures IsSyncKey(key) <==> key == "CallOnce" || key == "Cluster_Mutex"
  {
    assert ".t" + "_" + appID == ".t_" + appID;
  }

  /** The keys that the stores build are of their kinds. */
  lemma KeysHaveTheirKind(
      idhash: string -> string, gns: string, appID: AppID, userID: UserID, ns: string, key: string, sha: string)
    ensures gns in {KV_APP_PREFIX, KV_USER_PREFIX} && HashkeyOf(idhash, gns, appID, userID, ns, key).Ok? ==>
              IsHashkey(HashkeyOf(idhash, gns, appID, userID, ns, key).value)
    ensures IsSessionKey(SessionKey(appID, userID))
    ensures IsAppRecordKey(KV_INSTALLED_APP_PREFIX + sha) && IsManifestKey(KV_LOCAL_MANIFEST_PREFIX + sha)
  {
    var h := HashkeyOf(idhash, gns, appID, userID, ns, key);
    if h.Ok? {
      assert h.value[..2] == gns;
    }
    assert SessionKey(appID, userID)[..2] == KV_TOKEN_PREFIX;
    assert (KV_INSTALLED_APP_PREFIX + sha)[..4] == KV_INSTALLED_APP_PREFIX;
    assert (KV_LOCAL_MANIFEST_PREFIX + sha)[..4] == KV_LOCAL_MANIFEST_PREFIX;
  }
}
