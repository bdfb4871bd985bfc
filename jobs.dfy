/**
 * The job scraper's store: a list of job records that only grows, through a
 * scrape of a careers page or a manual entry, and never holds two jobs of the
 * same company whose titles are equal ignoring case. Queries filter it; the
 * market analysis counts jobs per company and per position keyword.
 *
 * The HTTP fetch, the clock and the regular-expression search of a page are
 * parameters: `matches(keyword)` says whether the page matches the keyword
 * pattern, ignoring case.
 */
module Jobs {
  import opened Common

  datatype Job = Job(id: string, company: string, title: string, location: string, salaryRange: string,
                     jobType: string, description: string, sourceUrl: string, scrapedAt: string,
                     status: string, manuallyAdded: bool)

  datatype Metadata = Metadata(lastScraped: string, totalJobs: nat)

  /** The patterns tried on a careers page, in order. */
  const QuantKeywords: seq<string> := [
    "quantitative researcher", "quantitative analyst", "quant developer",
    "quantitative trading", "algorithmic trading", "systematic trading",
    "risk analyst", "data scientist.*finance", "machine learning.*trading"]

  /** The position keywords of the market analysis, in order. */
  const PositionKeywords: seq<string> := ["researcher", "analyst", "developer", "trader", "scientist"]

  /** The careers pages scrape_target_companies visits, in order. */
  const TargetCompanies: seq<(string, string)> := [
    ("IMC Trading", "https://www.imc.com/us/careers"),
    ("Optiver", "https://optiver.com/working-at-optiver/career-opportunities"),
    ("Flow Traders", "https://www.flowtraders.com/careers"),
    ("Da Vinci", "https://www.davinci-group.com/careers/")]

  /** Two jobs are the same posting: same company, titles equal ignoring case. */
  predicate SameJob(a: Job, b: Job) {
    a.company == b.company && Lower(a.title) == Lower(b.title)
  }

  predicate ExistsIn(jobs: seq<Job>, job: Job) {
    exists i :: 0 <= i < |jobs| && SameJob(jobs[i], job)
  }

  /** The store invariant: no two stored jobs are the same posting. */
  predicate NoDuplicates(jobs: seq<Job>) {
    forall i, j :: 0 <= i < j < |jobs| ==> !SameJob(jobs[i], jobs[j])
  }

  /** job_exists: the search loop. */
  method JobExists(jobs: seq<Job>, job: Job) returns (found: bool)
    ensures found <==> ExistsIn(jobs, job)
  {
    for i := 0 to |jobs|
      invariant forall j :: 0 <= j < i ==> !SameJob(jobs[j], job)
    {
      if jobs[i].company == job.company && Lower(jobs[i].title) == Lower(job.title) {
        return true;
      }
    }
    return false;
  }

  /** The id of a job: lower-cased company and the given text with spaces as
      underscores, and the Unix time in seconds. */
  function JobId(company: string, text: string, stamp: int): (r: string)
    ensures var c := ReplaceChar(Lower(company), ' ', '_');
            c + "_" <= r && ' ' !in c && |c| == |company|
  {
    ReplaceChar(Lower(company), ' ', '_') + "_" + ReplaceChar(text, ' ', '_') + "_" + IntToString(stamp)
  }

  /** The first pattern, in list order, that the page matches. */
  function FirstMatch(keywords: seq<string>, matches: string -> bool): (k: Option<string>)
    ensures k.Some? ==> k.value in keywords && matches(k.value)
    ensures k.None? <==> forall i :: 0 <= i < |keywords| ==> !matches(keywords[i])
  {
    if keywords == [] then None
    else if matches(keywords[0]) then Some(keywords[0])
    else FirstMatch(keywords[1..], matches)
  }

  /** The pattern found is the first one in list order that matches: every
      pattern before it fails. */
  lemma {:induction false} FirstMatchIsFirst(keywords: seq<string>, matches: string -> bool)
    requires FirstMatch(keywords, matches).Some?
    ensures exists i :: 0 <= i < |keywords| && keywords[i] == FirstMatch(keywords, matches).value
                        && forall j :: 0 <= j < i ==> !matches(keywords[j])
  {
    if matches(keywords[0]) {
      assert keywords[0] == FirstMatch(keywords, matches).value;
    } else {
      var rest := keywords[1..];
      FirstMatchIsFirst(rest, matches);
      var i :| 0 <= i < |rest| && rest[i] == FirstMatch(rest, matches).value
                && forall j :: 0 <= j < i ==> !matches(rest[j]);
      assert keywords[i + 1] == FirstMatch(keywords, matches).value;
      assert forall j :: 0 <= j < i + 1 ==> !matches(keywords[j]) by {
        forall j | 0 <= j < i + 1 ensures !matches(keywords[j]) {
          if j > 0 { assert keywords[j] == rest[j - 1]; }
        }
      }
    }
  }

  /** The job built from the first matching pattern. */
  function ScrapedJob(company: string, keyword: string, sourceUrl: string, now: string, stamp: int): (r: Job)
    ensures r.company == company && r.sourceUrl == sourceUrl && r.scrapedAt == now
    ensures |r.title| == |keyword| && r.status == "active" && !r.manuallyAdded
  {
    Job(JobId(company, keyword, stamp), company, Title(keyword), "Amsterdam, Netherlands", "", "Full-time",
        "Position related to " + keyword, sourceUrl, now, "active", false)
  }

  /** The jobs a careers page yields: the job of the first pattern it
      matches, or none. */
  function PageJobs(company: string, matches: string -> bool, sourceUrl: string, now: string, stamp: int)
    : (r: seq<Job>)
    ensures |r| <= 1
    ensures r == [] <==> forall k :: k in QuantKeywords ==> !matches(k)
    ensures forall j :: j in r ==> j.company == company && j.sourceUrl == sourceUrl && j.status == "active"
  {
    match FirstMatch(QuantKeywords, matches)
    case None => []
    case Some(k) => [ScrapedJob(company, k, sourceUrl, now, stamp)]
  }

  /** extract_jobs_from_html: the loop over the patterns stops at the first
      match, so a page yields at most one job. */
  method ExtractJobs(company: string, matches: string -> bool, sourceUrl: string, now: string, stamp: int)
    returns (jobs: seq<Job>)
    ensures jobs == PageJobs(company, matches, sourceUrl, now, stamp)
    ensures |jobs| <= 1
    ensures jobs == [] <==> FirstMatch(QuantKeywords, matches).None?
    ensures jobs != [] ==> jobs[0] == ScrapedJob(company, FirstMatch(QuantKeywords, matches).value, sourceUrl, now, stamp)
  {
    jobs := ScanPatterns(QuantKeywords, company, matches, sourceUrl, now, stamp);
  }

  /** The loop of extract_jobs_from_html over a list of patterns. */
  method ScanPatterns(keywords: seq<string>, company: string, matches: string -> bool, sourceUrl: string,
                      now: string, stamp: int)
    returns (jobs: seq<Job>)
    ensures |jobs| <= 1
    ensures jobs == [] <==> FirstMatch(keywords, matches).None?
    ensures jobs != [] ==> jobs[0] == ScrapedJob(company, FirstMatch(keywords, matches).value, sourceUrl, now, stamp)
  {
    jobs := [];
    for i := 0 to |keywords|
      invariant FirstMatch(keywords, matches) == FirstMatch(keywords[i..], matches)
    {
      assert keywords[i..][1..] == keywords[i + 1..];
      if matches(keywords[i]) {
        jobs := [ScrapedJob(company, keywords[i], sourceUrl, now, stamp)];
        return;
      }
    }
  }

  /** The jobs after appending each found job that is not already stored. */
  function MergeNew(jobs: seq<Job>, found: seq<Job>): (r: seq<Job>)
    ensures |jobs| <= |r| <= |jobs| + |found|
    ensures r[..|jobs|] == jobs
  {
    if found == [] then jobs
    else
      var before := MergeNew(jobs, found[..|found| - 1]);
      var f := found[|found| - 1];
      if ExistsIn(before, f) then before else before + [f]
  }

  /** One more found job: the merge of the first i + 1 extends the merge of the first i. */
  lemma MergeNewStep(jobs: seq<Job>, found: seq<Job>, i: nat)
    requires i < |found|
    ensures var before := MergeNew(jobs, found[..i]);
            MergeNew(jobs, found[..i + 1]) == if ExistsIn(before, found[i]) then before else before + [found[i]]
  {
    assert found[..i + 1][..i] == found[..i];
  }

  /** Merging keeps the store free of duplicates, and afterwards every found
      job is in the store (itself or its earlier copy). */
  lemma {:induction false} MergeNewKeepsNoDuplicates(jobs: seq<Job>, found: seq<Job>)
    requires NoDuplicates(jobs)
    ensures NoDuplicates(MergeNew(jobs, found))
    ensures forall f :: f in found ==> ExistsIn(MergeNew(jobs, found), f)
  {
    if found != [] {
      var init := found[..|found| - 1];
      MergeNewKeepsNoDuplicates(jobs, init);
      var before := MergeNew(jobs, init);
      var f := found[|found| - 1];
      var r := MergeNew(jobs, found);
      assert r[..|before|] == before;
      forall g | g in found ensures ExistsIn(r, g) {
        if g != f {
          assert g in init;
          var i :| 0 <= i < |before| && SameJob(before[i], g);
          assert r[i] == before[i];
        } else if !ExistsIn(before, f) {
          assert SameJob(r[|before|], f);
        }
      }
    }
  }

  /** The store after scraping the first n target pages in turn: each page
      that could be fetched merges in the jobs it yields. */
  function ScrapedTargets(jobs: seq<Job>, fetch: string -> Option<string -> bool>, n: nat, now: string, stamp: int)
    : (r: seq<Job>)
    requires n <= |TargetCompanies|
    ensures |jobs| <= |r| <= |jobs| + n && r[..|jobs|] == jobs
    ensures NoDuplicates(jobs) ==> NoDuplicates(r)
  {
    if n == 0 then jobs
    else
      var before := ScrapedTargets(jobs, fetch, n - 1, now, stamp);
      var (company, url) := TargetCompanies[n - 1];
      if fetch(url).None? then before
      else
        var found := PageJobs(company, fetch(url).value, url, now, stamp);
        var r := MergeNew(before, found);
        assert r[..|jobs|] == r[..|before|][..|jobs|];
        if NoDuplicates(jobs) then
          MergeNewKeepsNoDuplicates(before, found);
          r
        else r
  }

  /** The optional keyword arguments of add_manual_job. */
  datatype ManualArgs = ManualArgs(location: Option<string>, salaryRange: Option<string>, jobType: Option<string>,
                                   description: Option<string>, sourceUrl: Option<string>)

  /** The record add_manual_job builds. */
  function ManualJob(company: string, title: string, args: ManualArgs, now: string, stamp: int): (j: Job)
    ensures j.company == company && j.title == title && j.manuallyAdded && j.status == "active"
    ensures j.id == JobId(company, Lower(title), stamp)
  {
    Job(JobId(company, Lower(title), stamp), company, title, args.location.GetOr("Amsterdam, Netherlands"),
        args.salaryRange.GetOr(""), args.jobType.GetOr("Full-time"), args.description.GetOr(""),
        args.sourceUrl.GetOr(""), now, "active", true)
  }

  // ---------------------------------------------------------------------
  // Queries

  predicate JobSelected(job: Job, company: Option<string>, keyword: Option<string>) {
    (Truthy(company) ==> Contains(Lower(job.company), Lower(company.value)))
    && (Truthy(keyword) ==> Contains(Lower(job.title), Lower(keyword.value))
                            || Contains(Lower(job.description), Lower(keyword.value)))
  }

  /** get_jobs: the jobs whose company contains the given text and whose
      title or description contains the keyword, ignoring case, each filter
      applied only when given. */
  function GetJobs(jobs: seq<Job>, company: Option<string>, keyword: Option<string>): (r: seq<Job>)
    ensures |r| <= |jobs|
    ensures forall j :: j in r <==> j in jobs && JobSelected(j, company, keyword)
  {
    var byCompany := if Truthy(company) then Filter(jobs, (j: Job) => Contains(Lower(j.company), Lower(company.value)))
                     else jobs;
    var r := if Truthy(keyword)
             then Filter(byCompany, (j: Job) => Contains(Lower(j.title), Lower(keyword.value))
                                                || Contains(Lower(j.description), Lower(keyword.value)))
             else byCompany;
    assert forall j :: j in r <==> j in jobs && JobSelected(j, company, keyword) by {
      forall j ensures j in r <==> j in jobs && JobSelected(j, company, keyword) {
        if Truthy(company) {
          FilterMembership(jobs, (j: Job) => Contains(Lower(j.company), Lower(company.value)), j);
        }
        if Truthy(keyword) {
          FilterMembership(byCompany, (j: Job) => Contains(Lower(j.title), Lower(keyword.value))
                                                  || Contains(Lower(j.description), Lower(keyword.value)), j);
        }
      }
    }
    r
  }

  /** get_jobs is one order-preserving filter of the stored jobs by both
      conditions. */
  lemma GetJobsIsFilter(jobs: seq<Job>, company: Option<string>, keyword: Option<string>)
    ensures GetJobs(jobs, company, keyword) == Filter(jobs, (j: Job) => JobSelected(j, company, keyword))
  {
    var sel := (j: Job) => JobSelected(j, company, keyword);
    if Truthy(company) && Truthy(keyword) {
      FilterFilter(jobs, (j: Job) => Contains(Lower(j.company), Lower(company.value)),
                   (j: Job) => Contains(Lower(j.title), Lower(keyword.value))
                               || Contains(Lower(j.description), Lower(keyword.value)), sel);
    } else if Truthy(company) {
      FilterSame(jobs, (j: Job) => Contains(Lower(j.company), Lower(company.value)), sel);
    } else if Truthy(keyword) {
      FilterSame(jobs, (j: Job) => Contains(Lower(j.title), Lower(keyword.value))
                                   || Contains(Lower(j.description), Lower(keyword.value)), sel);
    } else {
      FilterAll(jobs, sel);
    }
  }

  // ---------------------------------------------------------------------
  // Market analysis

  function CompanyOf(j: Job): string {
    j.company
  }

  /** The number of jobs whose lower-cased title contains the keyword. */
  function CountTitles(jobs: seq<Job>, keyword: string): (n: nat)
    ensures n <= |jobs|
  {
    if jobs == [] then 0
    else CountTitles(jobs[..|jobs| - 1], keyword) + (if Contains(Lower(jobs[|jobs| - 1].title), keyword) then 1 else 0)
  }

  /** One job's contribution: each keyword its title contains counts once. */
  function AddKeywords(counts: map<string, nat>, titleLower: string, keywords: seq<string>): (r: map<string, nat>)
    ensures forall k :: k in r ==> k in counts || k in keywords
  {
    if keywords == [] then counts
    else
      var before := AddKeywords(counts, titleLower, keywords[..|keywords| - 1]);
      var k := keywords[|keywords| - 1];
      if Contains(titleLower, k) then before[k := (if k in before then before[k] else 0) + 1] else before
  }

  /** The position types of the analysis. */
  function PositionTypes(jobs: seq<Job>): (r: map<string, nat>)
    ensures forall k :: k in r ==> k in PositionKeywords
  {
    if jobs == [] then map[]
    else AddKeywords(PositionTypes(jobs[..|jobs| - 1]), Lower(jobs[|jobs| - 1].title), PositionKeywords)
  }

  lemma {:induction false} AddKeywordsEffect(counts: map<string, nat>, titleLower: string, keywords: seq<string>,
                                             k: string)
    requires Distinct(keywords)
    ensures var r := AddKeywords(counts, titleLower, keywords);
            (k in r <==> k in counts || (k in keywords && Contains(titleLower, k)))
            && (k in r ==> r[k] == (if k in counts then counts[k] else 0)
                                   + (if k in keywords && Contains(titleLower, k) then 1 else 0))
  {
    if keywords != [] {
      var init := keywords[..|keywords| - 1];
      AddKeywordsEffect(counts, titleLower, init, k);
      assert keywords == init + [keywords[|keywords| - 1]];
      assert keywords[|keywords| - 1] !in init;
    }
  }

  /** Each position keyword counts the jobs whose title contains it, each
      job at most once; a keyword no title contains is absent. */
  lemma {:induction false} PositionTypesAreCounts(jobs: seq<Job>, k: string)
    ensures k in PositionTypes(jobs) <==> k in PositionKeywords && CountTitles(jobs, k) > 0
    ensures k in PositionTypes(jobs) ==> PositionTypes(jobs)[k] == CountTitles(jobs, k) <= |jobs|
  {
    if jobs != [] {
      PositionTypesAreCounts(jobs[..|jobs| - 1], k);
      AddKeywordsEffect(PositionTypes(jobs[..|jobs| - 1]), Lower(jobs[|jobs| - 1].title), PositionKeywords, k);
    }
  }

  /** The result of analyze_job_market. */
  datatype Analysis = NoJobsData
                    | Market(totalJobs: nat, companyDistribution: map<string, nat>,
                             positionTypes: map<string, nat>, lastUpdated: string)

  // ---------------------------------------------------------------------
  // The scraper

  class JobScraper {
    var jobs: seq<Job>
    var metadata: Metadata

    /** load_existing_data: the stored data, or an empty store. */
    constructor (stored: Option<(seq<Job>, Metadata)>)
      ensures stored.Some? ==> jobs == stored.value.0 && metadata == stored.value.1
      ensures stored.None? ==> jobs == [] && metadata == Metadata("", 0)
    {
      if stored.Some? {
        jobs, metadata := stored.value.0, stored.value.1;
      } else {
        jobs, metadata := [], Metadata("", 0);
      }
    }

    /** save_data's metadata update. */
    method SaveData(now: string)
      modifies this`metadata
      ensures metadata == Metadata(now, |jobs|)
    {
      metadata := Metadata(now, |jobs|);
    }

    /** The loop of scrape_company_careers that stores each found job unless
        it is already stored. */
    method AppendNew(found: seq<Job>)
      modifies this`jobs
      ensures jobs == MergeNew(old(jobs), found)
    {
      for i := 0 to |found|
        invariant jobs == MergeNew(old(jobs), found[..i])
      {
        MergeNewStep(old(jobs), found, i);
        var exists_ := JobExists(jobs, found[i]);
        if !exists_ {
          jobs := jobs + [found[i]];
        }
      }
      assert found[..|found|] == found;
    }

    /** scrape_company_careers: a page that could not be fetched (None)
        changes nothing; otherwise each extracted job is appended unless
        already stored. */
    method ScrapeCompanyCareers(company: string, careersUrl: string, page: Option<string -> bool>,
                                now: string, stamp: int)
      modifies this`jobs
      ensures page.None? ==> jobs == old(jobs)
      ensures page.Some? ==> jobs == MergeNew(old(jobs), PageJobs(company, page.value, careersUrl, now, stamp))
    {
      if page.None? {
        return;
      }
      var found := ExtractJobs(company, page.value, careersUrl, now, stamp);
      AppendNew(found);
    }

    /** scrape_target_companies: each target page in turn, then save.
        `fetch(url)` is the page's pattern test, None when the request
        fails. */
    method ScrapeTargetCompanies(fetch: string -> Option<string -> bool>, now: string, stamp: int)
      modifies this
      ensures jobs == ScrapedTargets(old(jobs), fetch, |TargetCompanies|, now, stamp)
      ensures NoDuplicates(old(jobs)) ==> NoDuplicates(jobs)
      ensures |old(jobs)| <= |jobs| <= |old(jobs)| + |TargetCompanies| && jobs[..|old(jobs)|] == old(jobs)
      ensures metadata == Metadata(now, |jobs|)
    {
      for c := 0 to |TargetCompanies|
        invariant jobs == ScrapedTargets(old(jobs), fetch, c, now, stamp)
      {
        var (company, url) := TargetCompanies[c];
        ScrapeCompanyCareers(company, url, fetch(url), now, stamp);
      }
      SaveData(now);
    }

    /** add_manual_job: append and save when no stored job is the same
        posting, returning the new id; otherwise None and no change. */
    method AddManualJob(company: string, title: string, args: ManualArgs, now: string, stamp: int)
      returns (id: Option<string>)
      modifies this
      ensures var job := ManualJob(company, title, args, now, stamp);
              (id.Some? <==> !ExistsIn(old(jobs), job))
              && (id.Some? ==> id.value == job.id && jobs == old(jobs) + [job] && metadata == Metadata(now, |jobs|))
              && (id.None? ==> jobs == old(jobs) && metadata == old(metadata))
      ensures NoDuplicates(old(jobs)) ==> NoDuplicates(jobs)
    {
      var job := ManualJob(company, title, args, now, stamp);
      var dup := JobExists(jobs, job);
      if dup {
        return None;
      }
      assert MergeNew(jobs, [job]) == jobs + [job] by {
        assert [job][..0] == [];
      }
      if NoDuplicates(jobs) {
        MergeNewKeepsNoDuplicates(jobs, [job]);
      }
      jobs := jobs + [job];
      SaveData(now);
      return Some(job.id);
    }

    /** analyze_job_market: an error for an empty store; otherwise the job
        count, the jobs per company and the jobs per position keyword. */
    method AnalyzeJobMarket() returns (a: Analysis)
      ensures jobs == [] <==> a.NoJobsData?
      ensures a.Market? ==> a == Market(|jobs|, Tally(jobs, CompanyOf), PositionTypes(jobs), metadata.lastScraped)
    {
      if jobs == [] {
        return NoJobsData;
      }
      var companies: map<string, nat> := map[];
      for i := 0 to |jobs|
        invariant companies == Tally(jobs[..i], CompanyOf)
      {
        assert jobs[..i + 1][..i] == jobs[..i];
        var c := jobs[i].company;
        companies := companies[c := (if c in companies then companies[c] else 0) + 1];
      }
      var types: map<string, nat> := map[];
      for i := 0 to |jobs|
        invariant types == PositionTypes(jobs[..i])
      {
        assert jobs[..i + 1][..i] == jobs[..i];
        types := CountKeywords(types, Lower(jobs[i].title));
      }
      assert jobs[..|jobs|] == jobs;
      return Market(|jobs|, companies, types, metadata.lastScraped);
    }
  }

  /** The inner loop of analyze_job_market over the position keywords. */
  method CountKeywords(counts: map<string, nat>, titleLower: string) returns (r: map<string, nat>)
    ensures r == AddKeywords(counts, titleLower, PositionKeywords)
  {
    r := counts;
    for i := 0 to |PositionKeywords|
      invariant r == AddKeywords(counts, titleLower, PositionKeywords[..i])
    {
      assert PositionKeywords[..i + 1][..i] == PositionKeywords[..i];
      var k := PositionKeywords[i];
      if Contains(titleLower, k) {
        r := r[k := (if k in r then r[k] else 0) + 1];
      }
    }
    assert PositionKeywords[..|PositionKeywords|] == PositionKeywords;
  }

  /** The company counts of the analysis add up to the number of jobs. */
  lemma CompanyCountsSumToTotal(jobs: seq<Job>, ks: seq<string>)
    requires Distinct(ks) && (set k | k in ks) == Tally(jobs, CompanyOf).Keys
    ensures SumOver(Tally(jobs, CompanyOf), ks) == |jobs|
  {
    TallySumsToLength(jobs, CompanyOf, ks);
  }
}
