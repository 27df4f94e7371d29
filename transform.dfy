/**
 * The record normaliser: maps one raw benchmark run to the unified record schema
 * (`pipeline/transform.py`), including the task-family to domain table.
 */
module Transform {
  import opened Wrappers
  import opened Strings

  /** The six domain labels a record can carry. */
  const DomainLabels: set<string> :=
    {"cybersecurity", "ml_research", "software_engineering", "data_analysis", "reasoning", "unknown"}

  // `TASK_DOMAIN_MAP`: the task families the table knows, one set per domain (the domains'
  // blocks do not share a family, so a lookup does not depend on the order of the blocks).
  const CybersecurityFamilies: set<string> := {
    "pico_ctf", "hackthebox", "root_me", "web_hacking",
    "sql_injection", "smart_contract_exploit", "novel_exploit", "vulnerability_detection",
    "blackbox", "palisade_crackme", "reverse_hash", "password_check",
    "spn_cryptanalysis", "rcrce", "automatic_jailbreak", "hash_collision",
    "anti_bot_site"
  }
  const MlResearchFamilies: set<string> := {
    "mlab", "ai_rd_fix_embedding", "ai_rd_nanogpt_chat_rl", "ai_rd_rust_codecontests_inference",
    "ai_rd_small_scaling_law", "ai_rd_triton_cumsum", "prune_attn_heads", "gpt2_algo_circuits",
    "gradient_inversion", "backdoor_image_classifier", "sparse_adversarial_perturbations", "adversarially_robust_models",
    "white_box_attack", "sentiment_probe", "few_shot_prompting", "inference_optimization",
    "acdc_bug", "lie_detector", "audio_classification", "image_labeling"
  }
  const SoftwareFamilies: set<string> := {
    "code_completion", "code2code", "debug_small_libs", "apps_dataset_debug",
    "make_web_server", "browser_test_2", "implement_ace_oauth", "search_server",
    "esolang", "auto_days_since", "sadservers", "tree_traversal_kernel",
    "cuda_backtesting", "network_routing", "robot_control", "uav_search",
    "oxdna_simple", "acronym_chatbot"
  }
  const DataAnalysisFamilies: set<string> := {
    "data_cleaning_arjun", "data_deduplication", "munge_data", "detect_data_tampering",
    "interpret_data", "interpret_building_data", "hypothesis_testing", "env_scientist",
    "symbolic_regression", "molecule_structure", "iclr_authors", "local_research",
    "local_research_tex", "wikipedia_research", "credit_card_validity", "file_recovery",
    "file_selection", "multiarmed_bandit"
  }
  const ReasoningFamilies: set<string> := {
    "arithmetic", "continue_pattern", "count_words", "request_routing",
    "alert_triage", "questions"
  }

  /** `TASK_DOMAIN_MAP.get(family)`: the domain of a known task family. */
  function TaskDomain(family: string): (r: Option<string>)
    ensures r.Some? ==> r.value in DomainLabels && r.value != "unknown"
  {
    if family in CybersecurityFamilies then Some("cybersecurity")
    else if family in MlResearchFamilies then Some("ml_research")
    else if family in SoftwareFamilies then Some("software_engineering")
    else if family in DataAnalysisFamilies then Some("data_analysis")
    else if family in ReasoningFamilies then Some("reasoning")
    else None
  }

  /** The empty string is not a task family of the table. */
  lemma EmptyFamilyUnknown()
    ensures TaskDomain("") == None
  {
    assert "" !in CybersecurityFamilies;
    assert "" !in MlResearchFamilies;
    assert "" !in SoftwareFamilies;
    assert "" !in DataAnalysisFamilies;
    assert "" !in ReasoningFamilies;
  }

  /** The exception a call can raise: `IndexError` from `"  ".split()[0]`. */
  datatype Error = IndexError

  /** A raw run as read from a source file; `None` is a missing key or a JSON `null`. */
  datatype RawRun = RawRun(
    alias: Option<string>,
    model: Option<string>,
    agent: Option<string>,
    taskFamily: Option<string>,
    taskId: Option<string>,
    scoreBinarized: Option<int>,
    scoreCont: Option<real>,
    humanMinutes: Option<real>,
    tokensCount: Option<real>,
    generationCost: Option<real>,
    releaseDate: Option<string>)

  /** One unified observation record, the input of the fitting and export stages. */
  datatype Record = Record(
    benchmark: string,
    domain: string,
    subdomain: string,
    model: string,
    agent: string,
    releaseDate: string,
    humanMinutes: real,
    score: real,
    scoreBinarized: int,
    tokensCount: Option<real>,
    generationCost: Option<real>,
    source: string)

  /** Python's `value or default` for an optional string: `None` and `""` are falsy. */
  function Or(value: Option<string>, default: string): string
  {
    if value.Some? && value.value != "" then value.value else default
  }

  /** `mapping.get(key)` */
  function Get(mapping: map<string, string>, key: string): Option<string>
  {
    if key in mapping then Some(mapping[key]) else None
  }

  // The keyword groups of the fallback, in the order they are tried.
  const CybersecurityKeywords: seq<string> := ["cyber", "ctf", "reverse_eng"]
  const SoftwareKeywords: seq<string> := ["swe", "software", "devops", "debug"]
  const ReasoningKeywords: seq<string> := ["reason", "math", "logic"]

  /** Python's `any(k in value for k in keywords)`. */
  predicate AnyIn(keywords: seq<string>, value: string)
  {
    exists k :: k in keywords && Contains(value, k)
  }

  /** The ordered keyword fallback of `infer_domain`, applied to the lower-cased text. */
  function KeywordDomain(value: string): (r: string)
    ensures r in DomainLabels && r != "ml_research" && r != "data_analysis"
    ensures r == "cybersecurity" <==> AnyIn(CybersecurityKeywords, value)
    ensures r == "software_engineering" <==> !AnyIn(CybersecurityKeywords, value) && AnyIn(SoftwareKeywords, value)
    ensures r == "reasoning" <==>
      !AnyIn(CybersecurityKeywords, value) && !AnyIn(SoftwareKeywords, value) && AnyIn(ReasoningKeywords, value)
  {
    if AnyIn(CybersecurityKeywords, value) then "cybersecurity"
    else if AnyIn(SoftwareKeywords, value) then "software_engineering"
    else if AnyIn(ReasoningKeywords, value) then "reasoning"
    else "unknown"
  }

  /**
   * `infer_domain(text)`: the domain of the first whitespace-separated token when the
   * table knows it, else the keyword fallback; blank but non-empty text raises.
   */
  function InferDomain(text: string): (r: Result<string, Error>)
    ensures r.Err? <==> text != "" && AllSpace(text)
    ensures r.Ok? ==> r.value in DomainLabels
    ensures FirstToken(text).Some? && TaskDomain(FirstToken(text).value).Some? ==>
      r == Ok(TaskDomain(FirstToken(text).value).value)
    ensures text == "" || (FirstToken(text).Some? && TaskDomain(FirstToken(text).value).None?) ==>
      r == Ok(KeywordDomain(Lower(text)))
  {
    if text != "" && FirstToken(text).None? then Err(IndexError)
    else
      var family := if text == "" then "" else FirstToken(text).value;
      match TaskDomain(family)
      case Some(domain) => Ok(domain)
      case None => Ok(KeywordDomain(Lower(text)))
  }

  /** A known task family followed by a space decides the domain, whatever follows it. */
  lemma KnownFamilyDecides(family: string, rest: string)
    requires TaskDomain(family).Some? && NoSpace(family)
    ensures InferDomain(family + " " + rest) == Ok(TaskDomain(family).value)
  {
    FirstTokenOfJoin(family, rest);
  }

  // The explicit-table cases of the tests: a task family of the table decides the domain.

  lemma InferPicoCtfExample()
    ensures InferDomain("pico_ctf" + " " + "pico_ctf/104") == Ok("cybersecurity")
  {
    assert TaskDomain("pico_ctf") == Some("cybersecurity");
    assert NoSpace("pico_ctf");
    KnownFamilyDecides("pico_ctf", "pico_ctf/104");
  }

  lemma InferMlabExample()
    ensures InferDomain("mlab" + " " + "mlab/w1d1") == Ok("ml_research")
  {
    assert TaskDomain("mlab") == Some("ml_research");
    assert NoSpace("mlab");
    KnownFamilyDecides("mlab", "mlab/w1d1");
  }

  /** "code_completion" is a single-token family of the table, in the software-engineering block. */
  lemma CodeCompletionInTable()
    ensures NoSpace("code_completion") && TaskDomain("code_completion") == Some("software_engineering")
  {
    assert TaskDomain("code_completion") == Some("software_engineering");
    assert NoSpace("code_completion");
  }

  lemma InferCodeCompletionExample()
    ensures InferDomain("code_completion" + " " + "code_completion/foo") == Ok("software_engineering")
  {
    CodeCompletionInTable();
    KnownFamilyDecides("code_completion", "code_completion/foo");
  }

  lemma InferDataCleaningExample()
    ensures InferDomain("data_cleaning_arjun" + " " + "data_cleaning_arjun/x") == Ok("data_analysis")
  {
    assert TaskDomain("data_cleaning_arjun") == Some("data_analysis");
    assert NoSpace("data_cleaning_arjun");
    KnownFamilyDecides("data_cleaning_arjun", "data_cleaning_arjun/x");
  }

  lemma InferArithmeticExample()
    ensures InferDomain("arithmetic" + " " + "arithmetic/1") == Ok("reasoning")
  {
    assert TaskDomain("arithmetic") == Some("reasoning");
    assert NoSpace("arithmetic");
    KnownFamilyDecides("arithmetic", "arithmetic/1");
  }

  /** Python's `value or default` for an optional number: `None` and `0` are falsy. */
  function OrZero(value: Option<real>): real
  {
    if value.Some? && value.value != 0.0 then value.value else 0.0
  }

  /** The model name of a run: the alias, else the model, else the agent, else "unknown". */
  function ModelName(run: RawRun): (m: string)
    ensures m != ""
    ensures Or(run.alias, "") != "" ==> m == run.alias.value
    ensures Or(run.alias, "") == "" && Or(run.model, "") != "" ==> m == run.model.value
    ensures Or(run.alias, "") == "" && Or(run.model, "") == "" && Or(run.agent, "") != "" ==> m == run.agent.value
    ensures Or(run.alias, "") == "" && Or(run.model, "") == "" && Or(run.agent, "") == "" ==> m == "unknown"
  {
    Or(run.alias, Or(run.model, Or(run.agent, "unknown")))
  }

  /**
   * The (continuous, binary) scores of a run: a missing binary score is 1 exactly when the
   * continuous one is at least 0.5, a missing continuous score is the binary one, and a run
   * with neither scores 0.
   */
  function Scores(run: RawRun): (r: (real, int))
    ensures run.scoreBinarized.None? && run.scoreCont.None? ==> r == (0.0, 0)
    ensures run.scoreBinarized.None? && run.scoreCont.Some? ==>
      r.0 == run.scoreCont.value && (r.1 == 1 <==> run.scoreCont.value >= 0.5)
      && (r.1 == 0 <==> run.scoreCont.value < 0.5)
    ensures run.scoreBinarized.Some? && run.scoreCont.None? ==>
      r == (run.scoreBinarized.value as real, run.scoreBinarized.value)
    ensures run.scoreBinarized.Some? && run.scoreCont.Some? ==>
      r == (run.scoreCont.value, run.scoreBinarized.value)
  {
    var scoreBin :=
      if run.scoreBinarized.None? && run.scoreCont.Some? then Some(if run.scoreCont.value >= 0.5 then 1 else 0)
      else run.scoreBinarized;
    var scoreCont :=
      if run.scoreCont.None? && scoreBin.Some? then Some(scoreBin.value as real) else run.scoreCont;
    (OrZero(scoreCont), if scoreBin.Some? then scoreBin.value else 0)
  }

  /**
   * The release date of a run: its own, else the table's entry for the model name, else the
   * table's entry for the lower-cased model name, else "".
   */
  function ReleaseDate(run: RawRun, model: string, releaseDates: map<string, string>): (d: string)
    ensures Or(run.releaseDate, "") != "" ==> d == run.releaseDate.value
    ensures Or(run.releaseDate, "") == "" && Or(Get(releaseDates, model), "") != "" ==> d == releaseDates[model]
    ensures Or(run.releaseDate, "") == "" && Or(Get(releaseDates, model), "") == "" ==>
      d == Or(Get(releaseDates, Lower(model)), "")
    ensures d == "" <==>
      Or(run.releaseDate, "") == "" && Or(Get(releaseDates, model), "") == ""
      && Or(Get(releaseDates, Lower(model)), "") == ""
  {
    Or(run.releaseDate, Or(Get(releaseDates, model), Or(Get(releaseDates, Lower(model)), "")))
  }

  /**
   * `normalize_run`: the unified record of one raw run. The domain comes from `infer_domain`
   * on the task family and task id joined by a space, which raises when both are blank; the
   * subdomain is the task family, or "unknown"; the agent is the alias, else the model name.
   */
  function NormalizeRun(run: RawRun, benchmark: string, sourceId: string, releaseDates: map<string, string>)
    : (r: Result<Record, Error>)
    ensures r.Err? <==> AllSpace(Or(run.taskFamily, "")) && AllSpace(Or(run.taskId, ""))
    ensures r.Ok? ==> r.value.benchmark == benchmark && r.value.source == sourceId
    ensures r.Ok? ==> r.value.domain in DomainLabels && r.value.subdomain != ""
    ensures r.Ok? ==> InferDomain(Or(run.taskFamily, "") + " " + Or(run.taskId, "")) == Ok(r.value.domain)
    ensures r.Ok? ==> r.value.subdomain == (if Or(run.taskFamily, "") != "" then Or(run.taskFamily, "") else "unknown")
    ensures r.Ok? ==> r.value.model == ModelName(run) && r.value.agent == r.value.model
    ensures r.Ok? ==> (r.value.score, r.value.scoreBinarized) == Scores(run)
    ensures r.Ok? ==> r.value.releaseDate == ReleaseDate(run, r.value.model, releaseDates)
    ensures r.Ok? && (run.humanMinutes.None? || run.humanMinutes.value == 0.0) ==> r.value.humanMinutes == 0.0
    ensures r.Ok? && run.humanMinutes.Some? ==> r.value.humanMinutes == run.humanMinutes.value
    ensures r.Ok? ==> r.value.tokensCount == run.tokensCount && r.value.generationCost == run.generationCost
  {
    var model := ModelName(run);
    var taskFamily := Or(run.taskFamily, "");
    var taskId := Or(run.taskId, "");
    var (score, scoreBin) := Scores(run);
    AllSpaceJoin(taskFamily, taskId);
    match InferDomain(taskFamily + " " + taskId)
    case Err(e) => Err(e)
    case Ok(domain) =>
      Ok(Record(
        benchmark := benchmark,
        domain := domain,
        subdomain := if taskFamily != "" then taskFamily else "unknown",
        model := model,
        agent := Or(run.alias, model),
        releaseDate := ReleaseDate(run, model, releaseDates),
        humanMinutes := OrZero(run.humanMinutes),
        score := score,
        scoreBinarized := scoreBin,
        tokensCount := run.tokensCount,
        generationCost := run.generationCost,
        source := sourceId))
  }

  /** A known task family decides the domain of the normalised record. */
  lemma NormalizeKnownFamily(run: RawRun, benchmark: string, sourceId: string, releaseDates: map<string, string>)
    requires run.taskFamily.Some? && TaskDomain(run.taskFamily.value).Some? && NoSpace(run.taskFamily.value)
    ensures NormalizeRun(run, benchmark, sourceId, releaseDates).Ok?
    ensures NormalizeRun(run, benchmark, sourceId, releaseDates).value.domain == TaskDomain(run.taskFamily.value).value
    ensures NormalizeRun(run, benchmark, sourceId, releaseDates).value.subdomain == run.taskFamily.value
  {
    var family, id := run.taskFamily.value, Or(run.taskId, "");
    var domain := TaskDomain(family).value;
    KnownFamilyDecides(family, id);
    assert InferDomain(family + " " + id) == Ok(domain);
    assert Or(run.taskFamily, "") == family;
    var r := NormalizeRun(run, benchmark, sourceId, releaseDates);
    assert r.Ok? && r.value.domain == domain;
    EmptyFamilyUnknown();
  }

  /** Empty task family and task id make `normalize_run` raise `IndexError` (the text is a lone space). */
  lemma NormalizeBlankTaskRaises(run: RawRun, benchmark: string, sourceId: string, releaseDates: map<string, string>)
    requires Or(run.taskFamily, "") == "" && Or(run.taskId, "") == ""
    ensures NormalizeRun(run, benchmark, sourceId, releaseDates) == Err(IndexError)
  {
  }

  /** The normaliser's test: an aliased, binary-scored software run with a tabled release date. */
  lemma NormalizeExample()
    ensures var run := RawRun(Some("model-a"), None, None, Some("code_completion"), Some("code_completion/t-1"),
                              Some(1), Some(0.83), Some(42.0), None, None, None);
      var r := NormalizeRun(run, "metr_hcast", "src_1", map["model-a" := "2025-06-01"]);
      r.Ok? && r.value.benchmark == "metr_hcast" && r.value.domain == "software_engineering"
      && r.value.model == "model-a" && r.value.releaseDate == "2025-06-01"
      && r.value.scoreBinarized == 1 && r.value.humanMinutes == 42.0
  {
    var run := RawRun(Some("model-a"), None, None, Some("code_completion"), Some("code_completion/t-1"),
                      Some(1), Some(0.83), Some(42.0), None, None, None);
    CodeCompletionInTable();
    var dates := map["model-a" := "2025-06-01"];
    NormalizeKnownFamily(run, "metr_hcast", "src_1", dates);
    assert ModelName(run) == "model-a";
    assert Get(dates, "model-a") == Some("2025-06-01");
  }
}
