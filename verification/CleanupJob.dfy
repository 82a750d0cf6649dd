// The cleanup job stage: its configuration, its environment, and waiting for it.
module CleanupJob {
  import opened Wrappers
  import opened Kube
  import Duration

  // ---------- text helpers of the standard library ----------

  function Split(sep: char, s: string): (parts: seq<string>)
    ensures |parts| >= 1
  {
    if s == [] then [[]]
    else if s[0] == sep then [[]] + Split(sep, s[1..])
    else
      var rest := Split(sep, s[1..]);
      [[s[0]] + rest[0]] + rest[1..]
  }

  function Join(sep: char, parts: seq<string>): string
    requires |parts| >= 1
  {
    if |parts| == 1 then parts[0] else parts[0] + [sep] + Join(sep, parts[1..])
  }

  // Everything before and after the first separator, if there is one.
  function SplitFirst(sep: char, s: string): Option<(string, string)> {
    if s == [] then None
    else if s[0] == sep then Some(("", s[1..]))
    else match SplitFirst(sep, s[1..])
      case None => None
      case Some((a, b)) => Some(([s[0]] + a, b))
  }

  predicate IsSpace(c: char) {
    c == ' ' || '\t' <= c <= '\r' || c == '\U{0085}' || c == '\U{00A0}' || c == '\U{1680}'
    || '\U{2000}' <= c <= '\U{200A}' || c == '\U{2028}' || c == '\U{2029}' || c == '\U{202F}'
    || c == '\U{205F}' || c == '\U{3000}'
  }

  function TrimLeft(s: string): string {
    if s != [] && IsSpace(s[0]) then TrimLeft(s[1..]) else s
  }

  function TrimRight(s: string): string {
    if s != [] && IsSpace(s[|s| - 1]) then TrimRight(s[..|s| - 1]) else s
  }

  function TrimSpace(s: string): string { TrimRight(TrimLeft(s)) }

  function ParseBool(s: string): Option<bool> {
    if s in ["1", "t", "T", "true", "TRUE", "True"] then Some(true)
    else if s in ["0", "f", "F", "false", "FALSE", "False"] then Some(false)
    else None
  }

  function Digits(s: string): Option<nat> {
    if s == [] then Some(0)
    else if !('0' <= s[|s| - 1] <= '9') then None
    else match Digits(s[..|s| - 1])
      case None => None
      case Some(n) => Some(10 * n + (s[|s| - 1] - '0') as nat)
  }

  // strconv.ParseInt(s, 10, 32)
  function ParseInt32(s: string): Option<int> {
    var signed := s != [] && (s[0] == '+' || s[0] == '-');
    var body := if signed then s[1..] else s;
    if body == [] || Digits(body) == None then None
    else
      var m: int := Digits(body).value;
      var n := if signed && s[0] == '-' then -m else m;
      if -0x8000_0000 <= n <= 0x7fff_ffff then Some(n) else None
  }

  // A decimal numeral, digit by digit from the left; one other character spoils it.
  lemma DigitsLaws(s: string, c: char)
    ensures Digits("") == Some(0)
    ensures '0' <= c <= '9' && Digits(s).Some? ==> Digits(s + [c]) == Some(10 * Digits(s).value + (c - '0') as nat)
    ensures !('0' <= c <= '9') || Digits(s).None? ==> Digits(s + [c]) == None
  {
    assert (s + [c])[..|s|] == s;
  }

  lemma {:induction false} DigitsIff(s: string)
    ensures Digits(s).Some? <==> forall k | 0 <= k < |s| :: '0' <= s[k] <= '9'
  {
    if s != [] {
      var n := |s| - 1;
      DigitsIff(s[..n]);
      assert forall k | 0 <= k < n :: s[..n][k] == s[k];
    }
  }

  // An optional sign before a nonempty numeral, within 32 bits; nothing else is a number.
  lemma Int32Means(s: string)
    ensures s != "" && Digits(s).Some? ==>
              && ParseInt32(s) == (if Digits(s).value <= 2_147_483_647 then Some(Digits(s).value as int) else None)
              && ParseInt32("+" + s) == ParseInt32(s)
              && ParseInt32("-" + s) ==
                   (if Digits(s).value <= 2_147_483_648 then Some(-(Digits(s).value as int)) else None)
    ensures s == "" || Digits(s).None? ==> ParseInt32("+" + s) == None && ParseInt32("-" + s) == None
    ensures s == "" || (Digits(s).None? && s[0] != '+' && s[0] != '-') ==> ParseInt32(s) == None
  {
    DigitsIff(s);
    hide Digits;
    assert ("+" + s)[1..] == s && ("-" + s)[1..] == s;
    assert s != "" && Digits(s).Some? ==> '0' <= s[0] <= '9';
  }

  // The reference is cut at its first slash and nowhere else.
  lemma {:induction false} ScriptReference(s: string, a: string, b: string)
    ensures SplitFirst('/', s) == Some((a, b)) <==> s == a + "/" + b && '/' !in a
  {
    if s == [] {
      assert |a + "/" + b| > 0;
    } else if a == [] {
      assert a + "/" + b == "/" + b;
      if SplitFirst('/', s) == Some((a, b)) && s[0] == '/' { assert s == "/" + s[1..]; }
      if s == "/" + b { assert s[1..] == b; }
    } else {
      ScriptReference(s[1..], a[1..], b);
      assert a == [a[0]] + a[1..];
      if s == a + "/" + b { assert s[1..] == a[1..] + "/" + b; }
      if s[0] == a[0] && s[1..] == a[1..] + "/" + b { assert s == [s[0]] + (a[1..] + "/" + b); }
    }
  }

  // ---------- configuration ----------

  datatype JobConfig = JobConfig(
    configMap: string,
    scriptKey: string,
    serviceAccount: string,
    image: string,
    wait: bool,
    timeout: int,
    ttlSeconds: int,
    backoffLimit: int,
    envSecrets: seq<string>)

  datatype ConfigError = BadReference | BadWait | BadTimeout | BadTTL | BadBackoff

  const DEFAULT_IMAGE := "bitnami/kubectl:latest"
  const DEFAULT_ACCOUNT := "default"
  const DEFAULT_TTL := 60
  const DEFAULT_BACKOFF := 3
  const DEFAULT_TIMEOUT: int := 300 * SECOND

  function OrElse(text: string, default: string): string {
    if text != "" then text else default
  }

  // An optional setting: the default when absent, an error when it does not parse.
  function Setting<T>(text: string, parse: string -> Option<T>, default: T): Option<T> {
    if text == "" then Some(default) else parse(text)
  }

  function ParseTimeout(wild: int): string -> Option<int> {
    (s: string) => match Duration.Parse(s, wild) case Ok(v) => Some(v) case Err(_) => None
  }

  function TrimAll(parts: seq<string>): seq<string> {
    seq(|parts|, k requires 0 <= k < |parts| => TrimSpace(parts[k]))
  }

  function SecretNames(text: string): seq<string> {
    if text == "" then [] else TrimAll(Split(',', text))
  }

  // No configuration, a refused one, or the settings field by field.
  function ParseConfig(a: Anns, wild: int): Result<Option<JobConfig>, ConfigError> {
    var wait := Setting(Get(a, JobWait), ParseBool, false);
    var timeout := Setting(Get(a, JobTimeout), ParseTimeout(wild), DEFAULT_TIMEOUT);
    var ttl := Setting(Get(a, JobTTL), ParseInt32, DEFAULT_TTL);
    var backoff := Setting(Get(a, JobBackoffLimit), ParseInt32, DEFAULT_BACKOFF);
    if Get(a, OnDeleteJob) == "" then Ok(None)
    else match SplitFirst('/', Get(a, OnDeleteJob))
      case None => Err(BadReference)
      case Some((name, key)) =>
        if wait == None then Err(BadWait)
        else if timeout == None then Err(BadTimeout)
        else if ttl == None then Err(BadTTL)
        else if backoff == None then Err(BadBackoff)
        else Ok(Some(JobConfig(
          name, key, OrElse(Get(a, JobServiceAccount), DEFAULT_ACCOUNT),
          OrElse(Get(a, JobImage), DEFAULT_IMAGE), wait.value, timeout.value, ttl.value,
          backoff.value, SecretNames(Get(a, JobEnvSecrets)))))
  }

  // Splitting at commas and trimming every part in place.
  method SplitAndTrim(secrets: string) returns (names: seq<string>)
    ensures names == TrimAll(Split(',', secrets))
  {
    names := Split(',', secrets);
    for i := 0 to |names|
      invariant |names| == |Split(',', secrets)|
      invariant forall k | 0 <= k < i :: names[k] == TrimSpace(Split(',', secrets)[k])
      invariant forall k | i <= k < |names| :: names[k] == Split(',', secrets)[k]
    {
      names := names[i := TrimSpace(names[i])];
    }
  }

  // The source fills a default configuration step by step and gives up at the first bad setting.
  method FillConfig(a: Anns, wild: int) returns (r: Result<Option<JobConfig>, ConfigError>)
    requires Duration.IsInt64(wild)
    ensures r == ParseConfig(a, wild)
  {
    hide Split, TrimAll, SplitFirst, Duration.Parse, ParseInt32, ParseBool;
    hide DEFAULT_IMAGE, DEFAULT_ACCOUNT;
    var onDeleteJob := Get(a, OnDeleteJob);
    if onDeleteJob == "" {
      return Ok(None);
    }
    var parts := SplitFirst('/', onDeleteJob);
    if parts == None {
      return Err(BadReference);
    }
    var config := JobConfig(parts.value.0, parts.value.1, DEFAULT_ACCOUNT, DEFAULT_IMAGE,
                            false, DEFAULT_TIMEOUT, DEFAULT_TTL, DEFAULT_BACKOFF, []);
    var sa := Get(a, JobServiceAccount);
    if sa != "" {
      config := config.(serviceAccount := sa);
    }
    var secrets := Get(a, JobEnvSecrets);
    if secrets != "" {
      var names := SplitAndTrim(secrets);
      config := config.(envSecrets := names);
    }
    var img := Get(a, JobImage);
    if img != "" {
      config := config.(image := img);
    }
    var waitStr := Get(a, JobWait);
    if waitStr != "" {
      var wait := ParseBool(waitStr);
      if wait == None {
        return Err(BadWait);
      }
      config := config.(wait := wait.value);
    }
    var timeoutStr := Get(a, JobTimeout);
    if timeoutStr != "" {
      var timeout := Duration.ParseFlexibleDuration(timeoutStr, wild);
      if timeout.Err? {
        return Err(BadTimeout);
      }
      config := config.(timeout := timeout.value);
    }
    var ttlStr := Get(a, JobTTL);
    if ttlStr != "" {
      var ttl := ParseInt32(ttlStr);
      if ttl == None {
        return Err(BadTTL);
      }
      config := config.(ttlSeconds := ttl.value);
    }
    var backoffStr := Get(a, JobBackoffLimit);
    if backoffStr != "" {
      var backoff := ParseInt32(backoffStr);
      if backoff == None {
        return Err(BadBackoff);
      }
      config := config.(backoffLimit := backoff.value);
    }
    return Ok(Some(config));
  }

  method ParseCleanupJobConfig(a: Anns, wild: int) returns (r: Result<Option<JobConfig>, ConfigError>)
    requires Duration.IsInt64(wild)
    ensures r == ParseConfig(a, wild)
    // no configuration without a reference
    ensures r == Ok(None) <==> OnDeleteJob !in a || a[OnDeleteJob] == ""
    // the settings and their defaults
    ensures r.Ok? && r.value.Some? ==>
              var c := r.value.value;
              && OnDeleteJob in a && a[OnDeleteJob] == c.configMap + "/" + c.scriptKey && '/' !in c.configMap
              && c.serviceAccount ==
                   (if JobServiceAccount in a && a[JobServiceAccount] != "" then a[JobServiceAccount] else "default")
              && c.image == (if JobImage in a && a[JobImage] != "" then a[JobImage] else "bitnami/kubectl:latest")
              && (c.wait <==> JobWait in a && a[JobWait] in ["1", "t", "T", "true", "TRUE", "True"])
              && (if JobTimeout in a && a[JobTimeout] != "" then Duration.Parse(a[JobTimeout], wild) == Ok(c.timeout)
                  else c.timeout == 300_000_000_000)
              && (if JobTTL in a && a[JobTTL] != "" then ParseInt32(a[JobTTL]) == Some(c.ttlSeconds)
                  else c.ttlSeconds == 60)
              && (if JobBackoffLimit in a && a[JobBackoffLimit] != ""
                  then ParseInt32(a[JobBackoffLimit]) == Some(c.backoffLimit) else c.backoffLimit == 3)
              && c.envSecrets ==
                   (if JobEnvSecrets in a && a[JobEnvSecrets] != "" then TrimAll(Split(',', a[JobEnvSecrets])) else [])
    // the errors, each from its own annotation; the first one in this order counts
    ensures var named := OnDeleteJob in a && '/' in a[OnDeleteJob];
            var wait := JobWait !in a || a[JobWait] in ["", "1", "t", "T", "true", "TRUE", "True",
                                                        "0", "f", "F", "false", "FALSE", "False"];
            var timeout := JobTimeout !in a || a[JobTimeout] == "" || Duration.Parse(a[JobTimeout], wild).Ok?;
            var ttl := JobTTL !in a || a[JobTTL] == "" || ParseInt32(a[JobTTL]).Some?;
            var backoff := JobBackoffLimit !in a || a[JobBackoffLimit] == "" || ParseInt32(a[JobBackoffLimit]).Some?;
            && (r == Err(BadReference) <==> OnDeleteJob in a && a[OnDeleteJob] != "" && !named)
            && (r == Err(BadWait) <==> named && !wait)
            && (r == Err(BadTimeout) <==> named && wait && !timeout)
            && (r == Err(BadTTL) <==> named && wait && timeout && !ttl)
            && (r == Err(BadBackoff) <==> named && wait && timeout && ttl && !backoff)
  {
    r := FillConfig(a, wild);
    ReferenceParts(Get(a, OnDeleteJob));
    hide Split, TrimAll, SplitFirst, Duration.Parse, ParseInt32;
  }

  // The two parts of a reference that has them.
  lemma ReferenceParts(s: string)
    ensures SplitFirst('/', s).Some? <==> '/' in s
    ensures SplitFirst('/', s).Some? ==>
              var (name, key) := SplitFirst('/', s).value;
              s == name + "/" + key && '/' !in name
  {
    if SplitFirst('/', s).Some? {
      var (name, key) := SplitFirst('/', s).value;
      ScriptReference(s, name, key);
      assert s[|name|] == '/';
    } else if '/' in s {
      SlashSplits(s);
    }
  }

  lemma {:induction false} SlashSplits(s: string)
    requires '/' in s
    ensures SplitFirst('/', s).Some?
  {
    if s[0] != '/' { SlashSplits(s[1..]); }
  }
}
