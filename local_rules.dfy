/** `proxyLocal` (lib/server.js:142-163): serve a request from a local file
    chosen by the first rule whose pattern matches the request path. */
module LocalRules {
  import opened Basics
  import opened Disk
  import opened Http
  import opened Static
  import opened Config

  /** `localRules.find(({pathReg}) => pathReg.test(path))`. */
  function MatchedRule(rules: seq<Rule>, path: string): (r: Option<nat>)
    ensures r.Some? ==> r.value < |rules| && rules[r.value].matches(path)
    ensures r.Some? ==> forall j :: 0 <= j < r.value ==> !rules[j].matches(path)
    ensures r.None? <==> forall j :: 0 <= j < |rules| ==> !rules[j].matches(path)
  {
    FindIndex(rules, (rule: Rule) => rule.matches(path))
  }

  /** The file the stage serves for `req`: the first existing candidate of
      the first matching rule, and nothing when no rule matches or when that
      rule has no existing candidate. */
  function LocalTarget(rules: seq<Rule>, req: Request, disk: Disk): (r: Option<string>)
    ensures r.Some? ==> Exists(disk, r.value)
    ensures MatchedRule(rules, req.path).None? ==> r.None?
    ensures MatchedRule(rules, req.path).Some? ==>
              r == Locate(rules[MatchedRule(rules, req.path).value].filepath(req), disk)
  {
    match MatchedRule(rules, req.path)
    case None => None
    case Some(i) => Locate(rules[i].filepath(req), disk)
  }

  /** Only the first matching rule is consulted: rules after it, whatever
      they match and whatever files they name, change nothing, even when
      the first matching rule finds no file. */
  lemma LaterRulesIgnored(rules: seq<Rule>, later: seq<Rule>, req: Request, disk: Disk)
    requires exists j :: 0 <= j < |rules| && rules[j].matches(req.path)
    ensures LocalTarget(rules + later, req, disk) == LocalTarget(rules, req, disk)
  {
    var p := (rule: Rule) => rule.matches(req.path);
    FindIndexAppend(rules, later, p);
    var i := MatchedRule(rules, req.path).value;
    assert (rules + later)[i] == rules[i];
  }

  /** A rule that matches but names no existing file makes the stage pass
      the request on, although a later rule would have found a file. */
  lemma MissPassesThrough(rules: seq<Rule>, i: nat, req: Request, disk: Disk)
    requires i < |rules| && rules[i].matches(req.path)
    requires forall j :: 0 <= j < i ==> !rules[j].matches(req.path)
    requires forall p :: p in CandidateList(rules[i].filepath(req)) ==> !Exists(disk, p)
    ensures LocalTarget(rules, req, disk).None?
  {
    assert MatchedRule(rules, req.path) == Some(i);
  }

  /** The middleware of lines 144-162: a match with an existing file is served
      (through the catch), everything else goes to `next` untouched. */
  method LocalStage(ctx: Context, disk: Disk, rules: seq<Rule>) returns (passed: bool)
    modifies ctx
    ensures passed <==> LocalTarget(rules, ctx.request, disk).None?
    ensures passed ==> unchanged(ctx)
    ensures !passed ==> ctx.State() == Caught(old(ctx.State()), disk, LocalTarget(rules, ctx.request, disk).value)
  {
    var path := ctx.request.path;
    var matched := MatchedRule(rules, path);
    if matched.Some? {
      var filepath := Locate(rules[matched.value].filepath(ctx.request), disk);
      if filepath.None? {
        return true;
      }
      SendCaught(ctx, disk, filepath.value);
      return false;
    }
    return true;
  }
}
