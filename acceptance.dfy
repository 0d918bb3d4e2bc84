/**
 * The acceptance-test driver script: it maps the source directory's name to
 * a project, writes the project's docker-compose file by literal token
 * replacement, builds the development container and runs the test runner
 * once per requested feature.
 */
module Acceptance {
  import opened Common

  // ---------------------------------------------------------------------
  // Literal replacement (`str_replace`, `replace_in_file`)
  // ---------------------------------------------------------------------

  /**
   * `str_replace` for one pair: every occurrence of `from`, scanning left to
   * right without rescanning replaced text; an empty `from` changes nothing.
   */
  function ReplaceAll(s: string, from: string, to: string): (r: string)
    ensures |to| == |from| ==> |r| == |s|
    decreases |s|
  {
    if from == [] || |s| < |from| then s
    else if s[..|from|] == from then to + ReplaceAll(s[|from|..], from, to)
    else [s[0]] + ReplaceAll(s[1..], from, to)
  }

  /** No character of `a` appears in `b`. */
  predicate Disjoint(a: string, b: string)
  {
    forall x :: x in a ==> x !in b
  }

  /** `s` holds no occurrence of `token`. */
  ghost predicate Absent(s: string, token: string)
  {
    forall p: nat :: !OccursAt(s, token, p)
  }

  /** A text without the token is left as it is. */
  lemma {:induction false} ReplaceAllAbsent(s: string, from: string, to: string)
    requires from != [] && Absent(s, from)
    ensures ReplaceAll(s, from, to) == s
    decreases |s|
  {
    if |s| >= |from| {
      assert !OccursAt(s, from, 0);
      assert Absent(s[1..], from) by {
        forall p: nat
          ensures !OccursAt(s[1..], from, p)
        {
          assert !OccursAt(s, from, p + 1);
          if p + |from| <= |s[1..]| {
            assert s[1..][p..p + |from|] == s[p + 1..p + 1 + |from|];
          }
        }
      }
      ReplaceAllAbsent(s[1..], from, to);
      assert s == [s[0]] + s[1..];
    }
  }

  /** A text starting with the token starts, once replaced, with the replacement. */
  lemma ReplacedStartsWithTo(s: string, from: string, to: string)
    requires from != [] && to != [] && |s| >= |from| && s[..|from|] == from
    ensures ReplaceAll(s, from, to)[0] == to[0] && to[0] in to
  {
  }

  /** An occurrence of a token starting inside the first part of a concatenation begins with one of its characters. */
  lemma TokenStartAt(a: string, b: string, token: string, p: nat)
    requires token != [] && p < |a| && OccursAt(a + b, token, p)
    ensures token[0] == a[p] && a[p] in a
  {
    assert (a + b)[p..p + |token|][0] == (a + b)[p];
  }

  lemma ConcatPrefixChar(a: string, b: string, p: nat)
    requires p < |a|
    ensures (a + b)[p] == a[p] && a[p] in a
  {
  }

  /** A prefix of the result free of the replacement's characters is a prefix of the input. */
  lemma {:induction false} UnreplacedPrefix(s: string, from: string, to: string, m: nat)
    requires to != []
    requires m <= |ReplaceAll(s, from, to)|
    requires forall k :: 0 <= k < m ==> ReplaceAll(s, from, to)[k] !in to
    ensures m <= |s| && ReplaceAll(s, from, to)[..m] == s[..m]
    decreases |s|
  {
    var r := ReplaceAll(s, from, to);
    if m == 0 {
    } else if from == [] || |s| < |from| {
    } else if s[..|from|] == from {
      ReplacedStartsWithTo(s, from, to);
      assert false;
    } else {
      var rest := ReplaceAll(s[1..], from, to);
      assert r == [s[0]] + rest;
      forall k | 0 <= k < m - 1
        ensures rest[k] !in to
      {
        assert rest[k] == r[k + 1];
      }
      UnreplacedPrefix(s[1..], from, to, m - 1);
      assert r[..m] == [s[0]] + rest[..m - 1];
      assert s[..m] == [s[0]] + s[1..][..m - 1];
    }
  }

  /** A stretch of the result free of the replacement's characters also occurs in the input. */
  lemma {:induction false} UnreplacedSegment(s: string, from: string, to: string, p: nat, m: nat)
    requires to != [] && m > 0
    requires p + m <= |ReplaceAll(s, from, to)|
    requires forall k :: p <= k < p + m ==> ReplaceAll(s, from, to)[k] !in to
    ensures Contains(s, ReplaceAll(s, from, to)[p..p + m])
    decreases |s|, 1
  {
    if from == [] || |s| < |from| {
      assert OccursAt(s, ReplaceAll(s, from, to)[p..p + m], p);
    } else if s[..|from|] == from {
      SegmentAfterMatch(s, from, to, p, m);
    } else if p == 0 {
      UnreplacedPrefix(s, from, to, m);
      assert OccursAt(s, ReplaceAll(s, from, to)[p..p + m], 0);
    } else {
      SegmentAfterChar(s, from, to, p, m);
    }
  }

  lemma {:induction false} SegmentAfterMatch(s: string, from: string, to: string, p: nat, m: nat)
    requires to != [] && m > 0 && from != [] && |s| >= |from| && s[..|from|] == from
    requires p + m <= |ReplaceAll(s, from, to)|
    requires forall k :: p <= k < p + m ==> ReplaceAll(s, from, to)[k] !in to
    ensures Contains(s, ReplaceAll(s, from, to)[p..p + m])
    decreases |s|, 0
  {
    var r := ReplaceAll(s, from, to);
    var rest := ReplaceAll(s[|from|..], from, to);
    assert r == to + rest;
    if p < |to| {
      ConcatPrefixChar(to, rest, p);
      assert false;
    }
    forall k | p - |to| <= k < p - |to| + m
      ensures rest[k] !in to
    {
      assert rest[k] == r[k + |to|];
    }
    UnreplacedSegment(s[|from|..], from, to, p - |to|, m);
    var q: nat :| q <= |s[|from|..]| && OccursAt(s[|from|..], rest[p - |to|..p - |to| + m], q);
    assert s[q + |from|..q + |from| + m] == s[|from|..][q..q + m];
    assert r[p..p + m] == rest[p - |to|..p - |to| + m];
    assert OccursAt(s, r[p..p + m], q + |from|);
  }

  /** A slice of the tail is the slice one further on. */
  lemma TailSlice(s: string, q: nat, m: nat)
    requires s != [] && q + m <= |s| - 1
    ensures s[1..][q..q + m] == s[q + 1..q + 1 + m]
  {
  }

  lemma {:induction false} SegmentAfterChar(s: string, from: string, to: string, p: nat, m: nat)
    requires to != [] && m > 0 && p > 0 && from != [] && |s| >= |from| && s[..|from|] != from
    requires p + m <= |ReplaceAll(s, from, to)|
    requires forall k :: p <= k < p + m ==> ReplaceAll(s, from, to)[k] !in to
    ensures Contains(s, ReplaceAll(s, from, to)[p..p + m])
    decreases |s|, 0
  {
    var r := ReplaceAll(s, from, to);
    var rest := ReplaceAll(s[1..], from, to);
    assert r == [s[0]] + rest;
    forall k | p - 1 <= k < p - 1 + m
      ensures rest[k] !in to
    {
      assert rest[k] == r[k + 1];
    }
    UnreplacedSegment(s[1..], from, to, p - 1, m);
    var q: nat :| q <= |s[1..]| && OccursAt(s[1..], rest[p - 1..p - 1 + m], q);
    assert q + m <= |s| - 1;
    TailSlice(s, q, m);
    assert r[p..p + m] == rest[p - 1..p - 1 + m];
    assert OccursAt(s, r[p..p + m], q + 1);
  }

  /** An occurrence past a prefix is an occurrence in what follows the prefix. */
  lemma OccursAfterPrefix(pre: string, rest: string, needle: string, p: nat)
    requires p >= |pre|
    ensures OccursAt(pre + rest, needle, p) <==> OccursAt(rest, needle, p - |pre|)
  {
    if p + |needle| <= |pre + rest| {
      assert (pre + rest)[p..p + |needle|] == rest[p - |pre|..p - |pre| + |needle|];
    }
  }

  /** Replacing one token with text made of other characters leaves none of it behind. */
  lemma {:induction false} ReplaceAllRemoves(s: string, from: string, to: string)
    requires from != [] && to != [] && Disjoint(to, from)
    ensures Absent(ReplaceAll(s, from, to), from)
    decreases |s|
  {
    var r := ReplaceAll(s, from, to);
    if |s| < |from| {
      forall p: nat
        ensures !OccursAt(r, from, p)
      {
      }
    } else if s[..|from|] == from {
      var rest := ReplaceAll(s[|from|..], from, to);
      assert r == to + rest;
      ReplaceAllRemoves(s[|from|..], from, to);
      forall p: nat
        ensures !OccursAt(r, from, p)
      {
        if p >= |to| {
          OccursAfterPrefix(to, rest, from, p);
        } else if OccursAt(r, from, p) {
          TokenStartAt(to, rest, from, p);
          assert false;
        }
      }
    } else {
      var rest := ReplaceAll(s[1..], from, to);
      assert r == [s[0]] + rest;
      ReplaceAllRemoves(s[1..], from, to);
      forall p: nat
        ensures !OccursAt(r, from, p)
      {
        if p >= 1 {
          OccursAfterPrefix([s[0]], rest, from, p);
        } else if OccursAt(r, from, p) {
          forall k | 0 <= k < |from|
            ensures r[k] !in to
          {
            assert r[k] == from[k];
          }
          UnreplacedPrefix(s, from, to, |from|);
          assert false;
        }
      }
    }
  }

  /** Replacing with text made of other characters than `token` never makes `token` appear. */
  lemma ReplaceAllKeepsAbsent(s: string, from: string, to: string, token: string)
    requires token != [] && to != [] && Disjoint(to, token)
    requires Absent(s, token)
    ensures Absent(ReplaceAll(s, from, to), token)
  {
    var r := ReplaceAll(s, from, to);
    forall p: nat
      ensures !OccursAt(r, token, p)
    {
      if OccursAt(r, token, p) {
        forall k | p <= k < p + |token|
          ensures r[k] !in to
        {
          assert r[k] == token[k - p];
        }
        UnreplacedSegment(s, from, to, p, |token|);
        assert false;
      }
    }
  }

  datatype Replacement = Replacement(from: string, to: string)

  /** The pairs applied in order, each to the text the previous ones produced. */
  function ReplaceEach(s: string, pairs: seq<Replacement>): (r: string)
    ensures (forall i :: 0 <= i < |pairs| ==> |pairs[i].to| == |pairs[i].from|) ==> |r| == |s|
    decreases |pairs|
  {
    if pairs == [] then s else ReplaceEach(ReplaceAll(s, pairs[0].from, pairs[0].to), pairs[1..])
  }

  /** Tokens and replacements that never share a character. */
  predicate Separated(pairs: seq<Replacement>)
  {
    forall i, j :: 0 <= i < |pairs| && 0 <= j < |pairs| ==>
      pairs[i].from != [] && pairs[i].to != [] && Disjoint(pairs[i].to, pairs[j].from)
  }

  /** With separated pairs, no token is left in the result, whatever the input held. */
  lemma {:induction false} ReplaceEachRemovesAll(s: string, pairs: seq<Replacement>, t: nat)
    requires Separated(pairs) && t < |pairs|
    ensures Absent(ReplaceEach(s, pairs), pairs[t].from)
    decreases |pairs|
  {
    var s1 := ReplaceAll(s, pairs[0].from, pairs[0].to);
    if t == 0 {
      ReplaceAllRemoves(s, pairs[0].from, pairs[0].to);
      AbsentStays(s1, pairs);
    } else {
      assert Separated(pairs[1..]) by {
        forall i, j | 0 <= i < |pairs[1..]| && 0 <= j < |pairs[1..]|
          ensures pairs[1..][i].from != [] && pairs[1..][i].to != [] && Disjoint(pairs[1..][i].to, pairs[1..][j].from)
        {
          assert pairs[1..][i] == pairs[i + 1] && pairs[1..][j] == pairs[j + 1];
        }
      }
      ReplaceEachRemovesAll(s1, pairs[1..], t - 1);
    }
  }

  /** Once `pairs[0]`'s token is gone, the remaining separated pairs cannot bring it back. */
  lemma {:induction false} AbsentStays(s: string, pairs: seq<Replacement>)
    requires Separated(pairs) && pairs != []
    requires Absent(s, pairs[0].from)
    ensures Absent(ReplaceEach(s, pairs[1..]), pairs[0].from)
    decreases |pairs|
  {
    if |pairs| > 1 {
      var s1 := ReplaceAll(s, pairs[1].from, pairs[1].to);
      ReplaceAllKeepsAbsent(s, pairs[1].from, pairs[1].to, pairs[0].from);
      var shorter := [pairs[0]] + pairs[2..];
      assert Separated(shorter) by {
        forall i, j | 0 <= i < |shorter| && 0 <= j < |shorter|
          ensures shorter[i].from != [] && shorter[i].to != [] && Disjoint(shorter[i].to, shorter[j].from)
        {
          assert shorter[i] == pairs[if i == 0 then 0 else i + 1];
          assert shorter[j] == pairs[if j == 0 then 0 else j + 1];
        }
      }
      AbsentStays(s1, shorter);
      assert shorter[1..] == pairs[1..][1..];
    }
  }

  /** `replace_in_file` on the file's text: the pairs in order; it always reports success. */
  method ReplaceInFile(input: string, toReplace: seq<Replacement>) returns (output: string, ok: bool)
    ensures output == ReplaceEach(input, toReplace)
    ensures ok
  {
    output := input;
    var i := 0;
    while i < |toReplace|
      invariant 0 <= i <= |toReplace|
      invariant ReplaceEach(input, toReplace) == ReplaceEach(output, toReplace[i..])
      decreases |toReplace| - i
    {
      assert toReplace[i..][1..] == toReplace[i + 1..];
      output := ReplaceAll(output, toReplace[i].from, toReplace[i].to);
      i := i + 1;
    }
    ok := true;
  }

  // ---------------------------------------------------------------------
  // Projects
  // ---------------------------------------------------------------------

  const WebImage := "@WEB_IMAGE@"
  const MiddlewareImage := "@MIDDLEWARE_IMAGE@"
  const Registry := "ci.int.centreon.com:5000/mon-middleware:"

  /** A project's descriptor: container build script, compose template and output, replacements. */
  datatype ProjectFiles = ProjectFiles(dev: string, composeIn: string, composeOut: string,
                                       composeReplace: seq<Replacement>)

  /** `get_project_files`: the descriptor of one of the five supported projects. */
  function GetProjectFiles(name: string, distrib: string, buildDir: string): (r: Option<ProjectFiles>)
    ensures r.Some? <==> name in {"web", "lm", "ppm", "middleware", "ppe"}
    ensures r.Some? ==> r.value.composeOut == "mon-" + name + "-dev.yml"
    ensures r.Some? ==> r.value.dev == buildDir + "/jobs/containers/mon-containers-" + name + "-dev.php"
    ensures r.Some? ==> |r.value.composeReplace| >= 1
    ensures r.Some? && name != "middleware" ==>
      r.value.composeReplace[0] == Replacement(WebImage, "mon-" + name + "-dev:" + distrib)
    ensures r.Some? && name in {"lm", "ppm", "ppe"} ==>
      r.value.composeReplace == [r.value.composeReplace[0], Replacement(MiddlewareImage, Registry + distrib)]
    ensures r.Some? && name == "web" ==> |r.value.composeReplace| == 1
    ensures r.Some? && name == "middleware" ==>
      r.value.composeReplace == [Replacement(MiddlewareImage, "mon-middleware-dev:" + distrib)]
  {
    var dev := buildDir + "/jobs/containers/mon-containers-" + name + "-dev.php";
    var out := "mon-" + name + "-dev.yml";
    var webCompose := buildDir + "/containers/web/docker-compose.yml.in";
    var middlewareWeb := buildDir + "/containers/middleware/docker-compose-web.yml.in";
    var image := "mon-" + name + "-dev:" + distrib;
    if name == "web" then
      Some(ProjectFiles(dev, webCompose, out, [Replacement(WebImage, image)]))
    else if name == "lm" || name == "ppm" then
      Some(ProjectFiles(dev, middlewareWeb, out,
        [Replacement(WebImage, image), Replacement(MiddlewareImage, Registry + distrib)]))
    else if name == "middleware" then
      Some(ProjectFiles(dev, buildDir + "/containers/middleware/docker-compose-standalone.yml.in", out,
        [Replacement(MiddlewareImage, "mon-middleware-dev:" + distrib)]))
    else if name == "ppe" then
      Some(ProjectFiles(dev, webCompose, out,
        [Replacement(WebImage, image), Replacement(MiddlewareImage, Registry + distrib)]))
    else None
  }

  /** A distribution name written with lower-case letters and digits only, as centos6 or centos7. */
  predicate PlainDistrib(distrib: string)
  {
    forall c :: c in distrib ==> ('a' <= c <= 'z') || ('0' <= c <= '9')
  }

  /** Text without any character an image token is made of: '@', '_' and capitals. */
  predicate TokenFree(s: string)
  {
    forall c :: c in s ==> c != '@' && c != '_' && !('A' <= c <= 'Z')
  }

  lemma TokenFreeAvoidsTokens(s: string)
    requires TokenFree(s)
    ensures Disjoint(s, WebImage) && Disjoint(s, MiddlewareImage)
  {
  }

  lemma TokenFreeConcat(a: string, b: string)
    requires TokenFree(a) && TokenFree(b)
    ensures TokenFree(a + b)
  {
  }

  /** Replacement lists for the image tokens whose texts avoid the tokens' characters. */
  lemma TokenPairsSeparated(pairs: seq<Replacement>)
    requires forall i :: 0 <= i < |pairs| ==>
      (pairs[i].from == WebImage || pairs[i].from == MiddlewareImage) && pairs[i].to != [] && TokenFree(pairs[i].to)
    ensures Separated(pairs)
  {
    forall i, j | 0 <= i < |pairs| && 0 <= j < |pairs|
      ensures pairs[i].from != [] && pairs[i].to != [] && Disjoint(pairs[i].to, pairs[j].from)
    {
      TokenFreeAvoidsTokens(pairs[i].to);
    }
  }

  lemma LiteralsTokenFree(name: string)
    requires name in {"web", "lm", "ppm", "middleware", "ppe"}
    ensures TokenFree(name) && TokenFree("mon-") && TokenFree("-dev:")
    ensures TokenFree(Registry) && TokenFree("mon-middleware-dev:")
  {
    NameTokenFree(name);
    ShortLiteralsTokenFree();
    RegistryTokenFree();
    TokenFreeConcat("mon-middleware", "-dev:");
  }

  lemma ShortLiteralsTokenFree()
    ensures TokenFree("mon-") && TokenFree("-dev:") && TokenFree("mon-middleware")
  {
  }

  lemma RegistryTokenFree()
    ensures TokenFree(Registry)
  {
    assert Registry == "ci.int.centreon.com:5000/" + "mon-middleware:";
    TokenFreeConcat("ci.int.centreon.com:5000/", "mon-middleware:");
  }

  lemma NameTokenFree(name: string)
    requires name in {"web", "lm", "ppm", "middleware", "ppe"}
    ensures TokenFree(name)
  {
    if name == "middleware" {
      assert TokenFree("middleware");
    }
  }

  /** Each replacement text of a project's descriptor avoids the image tokens' characters. */
  lemma ProjectTextsTokenFree(name: string, distrib: string, buildDir: string)
    requires PlainDistrib(distrib)
    requires GetProjectFiles(name, distrib, buildDir).Some?
    ensures var pairs := GetProjectFiles(name, distrib, buildDir).value.composeReplace;
      forall i :: 0 <= i < |pairs| ==>
        (pairs[i].from == WebImage || pairs[i].from == MiddlewareImage) && pairs[i].to != [] && TokenFree(pairs[i].to)
  {
    assert TokenFree(distrib);
    LiteralsTokenFree(name);
    TokenFreeConcat("mon-", name);
    TokenFreeConcat("mon-" + name, "-dev:");
    TokenFreeConcat("mon-" + name + "-dev:", distrib);
    TokenFreeConcat(Registry, distrib);
    TokenFreeConcat("mon-middleware-dev:", distrib);
  }

  /** For a plain distribution name, the generated compose file holds no image token any more. */
  lemma ComposeHasNoTokens(name: string, distrib: string, buildDir: string, template: string)
    requires PlainDistrib(distrib)
    requires GetProjectFiles(name, distrib, buildDir).Some?
    ensures forall t :: 0 <= t < |GetProjectFiles(name, distrib, buildDir).value.composeReplace| ==>
      Absent(ReplaceEach(template, GetProjectFiles(name, distrib, buildDir).value.composeReplace),
             GetProjectFiles(name, distrib, buildDir).value.composeReplace[t].from)
  {
    var pairs := GetProjectFiles(name, distrib, buildDir).value.composeReplace;
    ProjectTextsTokenFree(name, distrib, buildDir);
    TokenPairsSeparated(pairs);
    forall t | 0 <= t < |pairs|
      ensures Absent(ReplaceEach(template, pairs), pairs[t].from)
    {
      ReplaceEachRemovesAll(template, pairs, t);
    }
  }

  // ---------------------------------------------------------------------
  // The script
  // ---------------------------------------------------------------------

  const SupportedProjects: set<string> := {"web", "lm", "ppm", "middleware", "ppe"}

  /** The ten directory names the script recognises besides the project identifiers. */
  const DirectoryAliases: set<string> := {
    "centreon-license-manager", "centreon-lm", "centreon-imp-portal-api", "centreon-middleware",
    "centreon-export", "centreon-ppe", "centreon-import", "centreon-ppm", "centreon", "centreon-web"}

  /** The project switch: a source directory's name to a project identifier. */
  function ProjectAlias(dir: string): (project: string)
    ensures dir !in DirectoryAliases ==> project == dir
    ensures dir in DirectoryAliases ==> project in SupportedProjects
  {
    if dir == "centreon-license-manager" || dir == "centreon-lm" then "lm"
    else if dir == "centreon-imp-portal-api" || dir == "centreon-middleware" then "middleware"
    else if dir == "centreon-export" || dir == "centreon-ppe" then "ppe"
    else if dir == "centreon-import" || dir == "centreon-ppm" then "ppm"
    else if dir == "centreon" || dir == "centreon-web" then "web"
    else dir
  }

  /** A directory is handled exactly when it is an alias or already a project identifier. */
  lemma AliasSupported(dir: string, distrib: string, buildDir: string)
    ensures GetProjectFiles(ProjectAlias(dir), distrib, buildDir).Some? <==>
      dir in DirectoryAliases || dir in SupportedProjects
  {
  }

  /** Resolving twice is resolving once: no alias is itself a project identifier. */
  lemma AliasIdempotent(dir: string)
    ensures ProjectAlias(ProjectAlias(dir)) == ProjectAlias(dir)
  {
    if dir in DirectoryAliases {
      assert ProjectAlias(dir) !in DirectoryAliases;
    }
  }

  /** What `getopt("d:gh")` found. */
  datatype Options = Options(distrib: Option<string>, generateOnly: bool, help: bool)

  function Drop<T>(s: seq<T>, n: nat): seq<T>
  {
    if n >= |s| then [] else s[n..]
  }

  /** The feature arguments: the script name, two words for `-d` and one for `-g` are shifted off. */
  function RemainingArgs(argv: seq<string>, opts: Options): (rest: seq<string>)
    ensures |rest| <= |argv|
  {
    Drop(argv, 1 + (if opts.distrib.Some? then 2 else 0) + (if opts.generateOnly then 1 else 0))
  }

  /** The distribution, centos6 unless `-d` gives one. */
  function Distrib(opts: Options): (d: string)
    ensures opts.distrib.None? ==> d == "centos6"
    ensures opts.distrib.Some? ==> d == opts.distrib.value
  {
    if opts.distrib.Some? then opts.distrib.value else "centos6"
  }

  const TestCommand := "./vendor/bin/behat --strict"

  /** The features to run: the arguments, or a single empty one meaning all features. */
  function Features(args: seq<string>): (fs: seq<string>)
    ensures |fs| >= 1
    ensures args != [] ==> fs == args
  {
    if args == [] then [""] else args
  }

  /** The test loop: the runner is invoked once per feature whatever it returns. */
  method RunFeatures(cmd: string, args: seq<string>, runner: string -> int)
    returns (commands: seq<string>, statuses: seq<int>)
    ensures |commands| == |Features(args)| == |statuses|
    ensures forall i :: 0 <= i < |commands| ==> commands[i] == cmd + " " + Features(args)[i]
    ensures forall i :: 0 <= i < |statuses| ==> statuses[i] == runner(commands[i])
  {
    var features := if args == [] then [""] else args;
    commands, statuses := [], [];
    var i := 0;
    while i < |features|
      invariant 0 <= i <= |features|
      invariant |commands| == i == |statuses|
      invariant forall k :: 0 <= k < i ==> commands[k] == cmd + " " + features[k]
      invariant forall k :: 0 <= k < i ==> statuses[k] == runner(commands[k])
      decreases |features| - i
    {
      var command := cmd + " " + features[i];
      commands := commands + [command];
      statuses := statuses + [runner(command)];
      i := i + 1;
    }
  }

  const UsageLine := "USAGE: acceptance.php [-h] [-g] [-d distrib] [feature1 [feature2 [...] ] ]"
  const TokenMissing := "Please fill your GitHub token in acceptance.conf.php file."

  /** What one run of the script did: the value its top-level `return` gives, the file it wrote, the commands it ran. */
  datatype RunOutcome = RunOutcome(status: int, compose: Option<(string, string)>,
                                   buildCommand: Option<string>, testCommands: seq<string>,
                                   message: string)

  /**
   * The script. `token` is the configured GitHub token (None when undefined),
   * `sourceDir` the current directory and `dir` its base name; `readFile`,
   * `build` and `runner` stand for reading the compose template, the
   * container build and the test runner, each returning a status.
   */
  method Run(argv: seq<string>, opts: Options, token: Option<string>, sourceDir: string, dir: string,
             buildDir: string, readFile: string -> string, build: string -> int, runner: string -> int)
    returns (r: RunOutcome)
    ensures opts.help ==> r == RunOutcome(0, None, None, [], UsageLine)
    ensures !opts.help && (token.None? || token == Some("")) ==> r == RunOutcome(1, None, None, [], TokenMissing)
    ensures !opts.help && token.Some? && token != Some("") ==>
      var project := ProjectAlias(dir);
      var files := GetProjectFiles(project, Distrib(opts), buildDir);
      && (files.None? ==> r.status == 1 && r.compose.None? && r.buildCommand.None? && r.testCommands == [])
      && (files.Some? ==>
            ProjectRun(r, files.value, project, Distrib(opts), opts.generateOnly, RemainingArgs(argv, opts),
                       sourceDir, readFile, build))
  {
    if opts.help {
      return RunOutcome(0, None, None, [], UsageLine);
    }
    var distrib := Distrib(opts);
    var args := RemainingArgs(argv, opts);
    if token.None? || token.value == "" {
      return RunOutcome(1, None, None, [], TokenMissing);
    }
    var project := ProjectAlias(dir);
    var files := GetProjectFiles(project, distrib, buildDir);
    if files.None? {
      return RunOutcome(1, None, None, [],
        "Project " + project + " not supported: supported projects are 'web', 'lm', 'ppe', 'ppm', 'middleware'.");
    }
    r := RunProject(files.value, project, distrib, opts.generateOnly, args, sourceDir, readFile, build, runner);
  }

  /**
   * What the script does once the project is known: the compose file it
   * writes, the build command, and, after a successful build, one test
   * command per feature unless only generation was asked for.
   */
  predicate ProjectRun(r: RunOutcome, files: ProjectFiles, project: string, distrib: string, generateOnly: bool,
                       args: seq<string>, sourceDir: string, readFile: string -> string, build: string -> int)
    ensures ProjectRun(r, files, project, distrib, generateOnly, args, sourceDir, readFile, build) ==>
      r.status in {0, 1} && r.compose.Some? && r.buildCommand.Some?
  {
    && r.compose == Some((sourceDir + "/" + files.composeOut, ReplaceEach(readFile(files.composeIn), files.composeReplace)))
    && r.buildCommand == Some("php " + files.dev + " " + distrib)
    && (build(r.buildCommand.value) != 0 ==>
          r.status == 1 && r.testCommands == [] && r.message == "Could not build development container of " + project)
    && (build(r.buildCommand.value) == 0 ==> r.status == 0)
    && (build(r.buildCommand.value) == 0 && generateOnly ==> r.testCommands == [])
    && (build(r.buildCommand.value) == 0 && !generateOnly ==>
          && |r.testCommands| == |Features(args)|
          && forall i :: 0 <= i < |r.testCommands| ==> r.testCommands[i] == TestCommand + " " + Features(args)[i])
  }

  /** The script once the project is known: write the compose file, build, then run the tests. */
  method RunProject(files: ProjectFiles, project: string, distrib: string, generateOnly: bool, args: seq<string>,
                    sourceDir: string, readFile: string -> string, build: string -> int, runner: string -> int)
    returns (r: RunOutcome)
    ensures ProjectRun(r, files, project, distrib, generateOnly, args, sourceDir, readFile, build)
  {
    var text, _ := ReplaceInFile(readFile(files.composeIn), files.composeReplace);
    var compose := Some((sourceDir + "/" + files.composeOut, text));
    var command := "php " + files.dev + " " + distrib;
    if build(command) != 0 {
      return RunOutcome(1, compose, Some(command), [], "Could not build development container of " + project);
    }
    var tests: seq<string> := [];
    if !generateOnly {
      var statuses;
      tests, statuses := RunFeatures(TestCommand, args, runner);
    }
    r := RunOutcome(0, compose, Some(command), tests, "");
  }
}
