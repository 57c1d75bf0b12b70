/**
 The redirect rules: the plain-string matcher and its target join, and the middleware loop
 that resolves host and site address only when a rule needs them, against an eager
 first-match specification. Regular expressions, URL parsing and host normalisation are
 library work and appear as functions.
 */
module Redirects {
  import opened Options

  // Simple mode when `from` is not empty; otherwise `sub` is the regex substitution.
  datatype Rule = Rule(
    hostPath: bool, permanent: bool, from: string, prefix: bool, to: string,
    sub: string -> Option<string>)

  datatype Url = Url(host: string, path: string)

  datatype Request = Request(getOrHead: bool, host: string, path: string)

  // `base` is the configured "scheme://host", when there is a usable one.
  datatype Site = Site(normalize: string -> string, parse: string -> Option<Url>, base: Option<string>)

  datatype Redirect = Redirect(status: int, location: string)

  const SKIP_PREFIXES := ["/admin", "/assets", "/files", "/static", "/up"]

  predicate StartsWith(s: string, prefix: string) { prefix <= s }

  predicate EndsWithSlash(s: string) { |s| > 0 && s[|s| - 1] == '/' }

  predicate Skippable(path: string) {
    exists i :: 0 <= i < |SKIP_PREFIXES| && (path == SKIP_PREFIXES[i] || StartsWith(path, SKIP_PREFIXES[i] + "/"))
  }

  /// ### Matching one rule

  function TrimOneSlash(s: string): string {
    if |s| > 1 && EndsWithSlash(s) then s[..|s| - 1] else s
  }

  function Join(to: string, rest: string): string {
    if rest == "" then to
    else if EndsWithSlash(to) && rest[0] == '/' then to + rest[1..]
    else if !EndsWithSlash(to) && rest[0] != '/' then to + "/" + rest
    else to + rest
  }

  function ApplyExact(from: string, to: string, subject: string): Option<string> {
    if TrimOneSlash(subject) == TrimOneSlash(from) then Some(to) else None
  }

  // A from without a trailing slash continues only where a path segment ends.
  function ApplyPrefix(from: string, to: string, subject: string): Option<string> {
    if EndsWithSlash(from) then
      if StartsWith(subject, from) then Some(Join(to, subject[|from|..])) else None
    else if subject == from then Some(Join(to, ""))
    else if StartsWith(subject, from + "/") then Some(Join(to, subject[|from|..]))
    else None
  }

  function ApplyTo(rule: Rule, subject: string): Option<string> {
    if rule.from == "" then rule.sub(subject)
    else if rule.prefix then ApplyPrefix(rule.from, rule.to, subject)
    else ApplyExact(rule.from, rule.to, subject)
  }

  function TargetPath(url: Url): string {
    if url.path == "" then "/" else url.path
  }

  // The final target sends the request back to itself.
  predicate TargetsSelf(target: string, site: Site, host: string, path: string) {
    var url := site.parse(target);
    url.Some? && TargetPath(url.value) == path && (url.value.host == "" || site.normalize(url.value.host) == host)
  }

  /// ### The eager specification

  function Subject(rule: Rule, request: Request, site: Site): Option<string> {
    if rule.hostPath then Some(site.normalize(request.host) + request.path)
    else if Skippable(request.path) then None
    else Some(request.path)
  }

  // The target of a rule, completed with the site address where a host rule needs it.
  function Target(rule: Rule, request: Request, site: Site): Option<string> {
    var subject := Subject(rule, request, site);
    if subject.None? then None else
      var target := ApplyTo(rule, subject.value);
      if target.None? || !(rule.hostPath && StartsWith(target.value, "/")) then target
      else if site.base.None? then None
      else Some(site.base.value + target.value)
  }

  predicate Passes(rule: Rule, request: Request, site: Site) {
    var target := Target(rule, request, site);
    && target.Some?
    && !StartsWith(target.value, "//")
    && !TargetsSelf(target.value, site, site.normalize(request.host), request.path)
  }

  ghost predicate IsFirst(rules: seq<Rule>, i: int, request: Request, site: Site) {
    0 <= i < |rules| && Passes(rules[i], request, site) && forall j :: 0 <= j < i ==> !Passes(rules[j], request, site)
  }

  function Answer(rule: Rule, request: Request, site: Site): Redirect
    requires Target(rule, request, site).Some?
  {
    Redirect(if rule.permanent then 301 else 302, Target(rule, request, site).value)
  }

  /// ### The middleware

  // What has been resolved so far, and how often each lookup was made.
  datatype Lookups = Lookups(host: Option<string>, base: Option<Option<string>>, hostReads: nat, baseReads: nat)

  predicate Sound(l: Lookups, request: Request, site: Site) {
    && l.hostReads == (if l.host.Some? then 1 else 0) && (l.host.Some? ==> l.host.value == site.normalize(request.host))
    && l.baseReads == (if l.base.Some? then 1 else 0) && (l.base.Some? ==> l.base.value == site.base)
  }

  method ResolveHost(l: Lookups, request: Request, site: Site) returns (host: string, after: Lookups)
    requires Sound(l, request, site)
    ensures Sound(after, request, site) && after.base == l.base && host == site.normalize(request.host)
  {
    after := l;
    if after.host.None? {
      after := after.(host := Some(site.normalize(request.host)), hostReads := after.hostReads + 1);
    }
    host := after.host.value;
  }

  // The target of one rule, completed with the site address where that is needed.
  method ResolveTarget(rule: Rule, request: Request, site: Site, skipPath: bool, l: Lookups)
    returns (target: Option<string>, after: Lookups)
    requires Sound(l, request, site) && skipPath == Skippable(request.path)
    ensures Sound(after, request, site) && target == Target(rule, request, site)
    ensures after.base.Some? ==> l.base.Some? || rule.hostPath
  {
    after := l;
    var subject := request.path;
    if rule.hostPath {
      var host;
      host, after := ResolveHost(after, request, site);
      subject := host + request.path;
    } else if skipPath {
      return None, after;
    }
    target := ApplyTo(rule, subject);
    if target.Some? && rule.hostPath && StartsWith(target.value, "/") {
      if after.base.None? {
        after := after.(base := Some(site.base), baseReads := after.baseReads + 1);
      }
      if after.base.value.None? { return None, after; }
      target := Some(after.base.value.value + target.value);
    }
  }

  // One round of the loop: the target, if it passes every guard.
  method TryRule(rule: Rule, request: Request, site: Site, skipPath: bool, l: Lookups)
    returns (passed: Option<string>, after: Lookups)
    requires Sound(l, request, site) && skipPath == Skippable(request.path)
    ensures Sound(after, request, site)
    ensures passed == if Passes(rule, request, site) then Target(rule, request, site) else None
    ensures after.base.Some? ==> l.base.Some? || rule.hostPath
  {
    passed, after := ResolveTarget(rule, request, site, skipPath, l);
    if passed.None? { return; }
    if StartsWith(passed.value, "//") { return None, after; }
    var host;
    host, after := ResolveHost(after, request, site);
    if TargetsSelf(passed.value, site, host, request.path) { return None, after; }
  }

  method RedirectMiddleware(rules: seq<Rule>, request: Request, site: Site)
    returns (answer: Option<Redirect>, hostReads: nat, baseReads: nat)
    ensures answer.None? <==> !request.getOrHead || forall i :: 0 <= i < |rules| ==> !Passes(rules[i], request, site)
    ensures answer.Some? ==>
      exists i :: IsFirst(rules, i, request, site) && answer.value == Answer(rules[i], request, site)
    ensures answer.Some? ==>
      && !StartsWith(answer.value.location, "//")
      && !TargetsSelf(answer.value.location, site, site.normalize(request.host), request.path)
    ensures hostReads <= 1 && baseReads <= 1
    ensures baseReads == 1 ==> exists i :: 0 <= i < |rules| && rules[i].hostPath
    ensures |rules| == 1 && !rules[0].hostPath && rules[0].from != "" && !rules[0].prefix ==>
      answer ==
        if request.getOrHead && !Skippable(request.path) && SameButSlash(request.path, rules[0].from)
          && LeadsOn(rules[0].to, request, site)
        then Some(Redirect(if rules[0].permanent then 301 else 302, rules[0].to)) else None
  {
    if |rules| == 1 && !rules[0].hostPath && rules[0].from != "" && !rules[0].prefix {
      PathRuleAnswers(rules[0], request, site);
      ExactRuleYields(rules[0], request.path);
    }
    if !request.getOrHead { return None, 0, 0; }
    if |rules| == 0 { return None, 0, 0; }
    var skipPath := Skippable(request.path);
    var lookups := Lookups(None, None, 0, 0);
    var n := 0;
    while n < |rules|
      invariant 0 <= n <= |rules| && Sound(lookups, request, site)
      invariant forall j :: 0 <= j < n ==> !Passes(rules[j], request, site)
      invariant lookups.base.Some? ==> exists i :: 0 <= i < n && rules[i].hostPath
    {
      var passed;
      passed, lookups := TryRule(rules[n], request, site, skipPath, lookups);
      if passed.Some? {
        assert IsFirst(rules, n, request, site);
        answer := Some(Redirect(if rules[n].permanent then 301 else 302, passed.value));
        return answer, lookups.hostReads, lookups.baseReads;
      }
      n := n + 1;
    }
    return None, lookups.hostReads, lookups.baseReads;
  }

  /// ### What a plain rule answers

  // The same but for one trailing slash; a lone slash is kept.
  ghost predicate SameButSlash(a: string, b: string) {
    || a == b
    || (a == b + "/" && b != "" && (b == "/" || b[|b| - 1] != '/'))
    || (b == a + "/" && a != "" && (a == "/" || a[|a| - 1] != '/'))
  }

  lemma TrimsTheSlash(s: string)
    ensures s != "" ==> TrimOneSlash(s + "/") == s
    ensures TrimOneSlash(s) == s || s == TrimOneSlash(s) + "/"
  {
    assert (s + "/")[..|s|] == s;
  }

  lemma TrimsAlike(a: string, b: string)
    requires TrimOneSlash(a) == TrimOneSlash(b)
    ensures SameButSlash(a, b)
  {
    TrimsTheSlash(a);
    TrimsTheSlash(b);
  }

  lemma AlikeTrims(a: string, b: string)
    requires SameButSlash(a, b)
    ensures TrimOneSlash(a) == TrimOneSlash(b)
  {
    TrimsTheSlash(a);
    TrimsTheSlash(b);
  }

  // An exact rule yields its target for the subjects that equal it but for one slash.
  lemma ExactRuleYields(rule: Rule, subject: string)
    requires rule.from != "" && !rule.prefix
    ensures ApplyTo(rule, subject) == if SameButSlash(subject, rule.from) then Some(rule.to) else None
  {
    if SameButSlash(subject, rule.from) { AlikeTrims(subject, rule.from); }
    if TrimOneSlash(subject) == TrimOneSlash(rule.from) { TrimsAlike(subject, rule.from); }
  }

  // A prefix rule takes its prefix at the end of a path segment only, and what follows it goes
  // behind the target, with one slash between.
  lemma PrefixRuleYields(rule: Rule, rest: string)
    requires rule.from != "" && rule.prefix
    ensures
      var to := if rule.to != "" && rule.to[|rule.to| - 1] == '/' then rule.to[..|rule.to| - 1] else rule.to;
      var tail := if rest != "" && rest[0] == '/' then rest[1..] else rest;
      var subject := rule.from + rest;
      && (rest == "" ==> ApplyTo(rule, subject) == Some(rule.to))
      && (rest != "" && (rest[0] == '/' || rule.from[|rule.from| - 1] == '/') ==>
            ApplyTo(rule, subject) == Some(to + "/" + tail))
      && (rest != "" && rest[0] != '/' && rule.from[|rule.from| - 1] != '/' ==> ApplyTo(rule, subject) == None)
  {
    var from, subject := rule.from, rule.from + rest;
    assert subject[|from|..] == rest && subject[..|from|] == from;
    if rest != "" {
      assert rest == [rest[0]] + rest[1..];
      assert subject[|from|] == rest[0];
      assert (from + "/")[|from|] == '/';
      if rest[0] == '/' { assert subject[..|from| + 1] == from + "/"; }
    }
    if rest != "" { JoinsWithOneSlash(rule.to, rest); }
  }

  lemma JoinsWithOneSlash(to: string, rest: string)
    requires rest != ""
    ensures Join(to, rest) ==
      (if to != "" && to[|to| - 1] == '/' then to[..|to| - 1] else to) + "/"
      + (if rest[0] == '/' then rest[1..] else rest)
  {
    if to != "" && to[|to| - 1] == '/' { assert to == to[..|to| - 1] + "/"; }
    if rest[0] == '/' { assert rest == "/" + rest[1..]; }
  }

  lemma PrefixRuleNeedsPrefix(rule: Rule, subject: string)
    requires rule.from != "" && rule.prefix && ApplyTo(rule, subject).Some?
    ensures rule.from <= subject
  {
    if rule.from + "/" <= subject {
      assert (rule.from + "/")[..|rule.from|] == rule.from && subject[..|rule.from| + 1] == rule.from + "/";
    }
  }

  predicate AtOrBelow(path: string, prefix: string) { path == prefix || prefix + "/" <= path }

  lemma SkipsExactly(path: string)
    ensures Skippable(path) <==>
      AtOrBelow(path, "/admin") || AtOrBelow(path, "/assets") || AtOrBelow(path, "/files")
      || AtOrBelow(path, "/static") || AtOrBelow(path, "/up")
  {
    var skipped := SKIP_PREFIXES;
    assert skipped[0] == "/admin" && skipped[1] == "/assets" && skipped[2] == "/files" && skipped[3] == "/static"
      && skipped[4] == "/up" && |skipped| == 5;
  }

  // A location that neither leaves the site by a protocol-relative address nor sends the
  // request back to its own host and path.
  ghost predicate LeadsOn(location: string, request: Request, site: Site) {
    && !("//" <= location)
    && (site.parse(location).Some? ==>
          var url := site.parse(location).value;
          || request.path != (if url.path == "" then "/" else url.path)
          || (url.host != "" && site.normalize(url.host) != site.normalize(request.host)))
  }

  // One rule on the request's path: it is left alone under the reserved prefixes.
  lemma PathRuleAnswers(rule: Rule, request: Request, site: Site)
    requires !rule.hostPath
    ensures
      var yielded := ApplyTo(rule, request.path);
      && (Passes(rule, request, site) <==>
            !Skippable(request.path) && yielded.Some? && LeadsOn(yielded.value, request, site))
      && (Passes(rule, request, site) ==>
            Answer(rule, request, site) == Redirect(if rule.permanent then 301 else 302, yielded.value))
  {
  }

  // One rule on host and path: a target on the site needs the site's address before it.
  lemma HostRuleAnswers(rule: Rule, request: Request, site: Site)
    requires rule.hostPath
    ensures
      var yielded := ApplyTo(rule, site.normalize(request.host) + request.path);
      if yielded.None? || ("/" <= yielded.value && site.base.None?) then
        !Passes(rule, request, site)
      else
        var location := if "/" <= yielded.value then site.base.value + yielded.value else yielded.value;
        && (Passes(rule, request, site) <==> LeadsOn(location, request, site))
        && (Passes(rule, request, site) ==>
              Answer(rule, request, site) == Redirect(if rule.permanent then 301 else 302, location))
  {
  }

  /// ### Prefix rules there and back

  ghost predicate ThereAndBack(from: string, to: string, subject: string) {
    ApplyPrefix(from, to, subject).Some? ==>
      ApplyPrefix(to, from, ApplyPrefix(from, to, subject).value) == Some(subject)
  }

  lemma SlashFreeReturns(from: string, to: string, subject: string)
    requires !EndsWithSlash(from) && !EndsWithSlash(to)
    ensures ThereAndBack(from, to, subject)
  {
    if subject != from && StartsWith(subject, from + "/") {
      var rest := subject[|from|..];
      assert subject == from + rest;
      assert rest[0] == (from + "/")[|from|];
      assert (to + rest)[..|to| + 1] == to + "/";
      assert (to + rest)[|to|..] == rest;
    }
  }

  // A doubled slash behind the prefix does not survive a trailing slash on either side.
  lemma SlashLosesDoubledSlash(from: string, to: string) returns (subject: string)
    requires EndsWithSlash(from) || EndsWithSlash(to)
    ensures ApplyPrefix(from, to, subject).Some? && !ThereAndBack(from, to, subject)
  {
    if EndsWithSlash(from) {
      subject := from + "/x";
      assert subject[|from|..] == "/x";
      if EndsWithSlash(to) {
        assert Join(to, "/x") == to + "x" && (to + "x")[|to|..] == "x";
        assert |Join(from, "x")| == |from| + 1;
      } else {
        assert Join(to, "/x") == to + "/x" && (to + "/x")[|to|..] == "/x" && (to + "/x")[..|to| + 1] == to + "/";
        assert |Join(from, "/x")| == |from| + 1;
      }
    } else {
      subject := from + "//x";
      assert subject[|from|..] == "//x" && subject[..|from| + 1] == from + "/";
      assert "//x"[1..] == "/x";
      assert Join(to, "//x") == to + "/x" && (to + "/x")[|to|..] == "/x";
      assert |Join(from, "/x")| == |from| + 2;
    }
  }

  // The prefix rules from -> to and to -> from undo each other on every subject they match
  // if and only if neither string ends with a slash.
  lemma PrefixRulesInverse(from: string, to: string)
    requires from != "" && to != ""
    ensures (forall subject :: ThereAndBack(from, to, subject)) <==> !EndsWithSlash(from) && !EndsWithSlash(to)
  {
    if EndsWithSlash(from) || EndsWithSlash(to) {
      var subject := SlashLosesDoubledSlash(from, to);
      assert !ThereAndBack(from, to, subject);
    } else {
      forall subject ensures ThereAndBack(from, to, subject) { SlashFreeReturns(from, to, subject); }
    }
  }
}
