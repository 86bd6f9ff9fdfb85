/**
 * The keyword engine's static skill taxonomy: fifteen categories in the source's
 * order, each with its terms and one weight. Weights are kept in integer tenths
 * (1.5 is 15). Terms repeated across categories (`swift`, `kotlin`) are kept, so
 * such a term is counted once per category it appears in.
 */
module Taxonomy {

  datatype Category = Category(name: string, terms: seq<string>, weight: nat)

  /** One (term, weight) pair of the flattened taxonomy. */
  datatype Entry = Entry(term: string, weight: nat)

  const Categories: seq<Category> := [
    Category("programming_languages",
      ["python", "java", "javascript", "typescript", "c++", "c#", "go",
       "rust", "ruby", "php", "swift", "kotlin", "scala", "r", "matlab"], 15),
    Category("frontend_frameworks",
      ["react", "vue", "angular", "svelte", "next.js", "nuxt", "gatsby",
       "html5", "css3", "sass", "less", "tailwind", "bootstrap", "material-ui"], 13),
    Category("backend_frameworks",
      ["fastapi", "django", "flask", "nodejs", "express", "nestjs",
       "spring boot", "spring", "asp.net", "rails", "laravel", "symfony"], 14),
    Category("mobile_development",
      ["react native", "flutter", "ios development", "android development",
       "swift", "kotlin", "xamarin", "ionic", "cordova"], 13),
    Category("databases",
      ["postgresql", "mysql", "mongodb", "redis", "elasticsearch",
       "cassandra", "dynamodb", "sql", "nosql", "oracle", "sql server"], 13),
    Category("cloud_platforms",
      ["aws", "azure", "gcp", "google cloud", "heroku", "digitalocean",
       "vercel", "netlify", "cloudflare"], 14),
    Category("devops_tools",
      ["docker", "kubernetes", "jenkins", "gitlab ci", "github actions",
       "circleci", "travis ci", "terraform", "ansible", "puppet", "chef"], 12),
    Category("data_science",
      ["machine learning", "deep learning", "tensorflow", "pytorch",
       "scikit-learn", "pandas", "numpy", "matplotlib", "jupyter",
       "data analysis", "nlp", "computer vision"], 15),
    Category("testing",
      ["jest", "pytest", "junit", "selenium", "cypress", "testing",
       "unit testing", "integration testing", "tdd", "bdd"], 11),
    Category("version_control",
      ["git", "github", "gitlab", "bitbucket", "svn", "version control"], 10),
    Category("project_management",
      ["agile", "scrum", "kanban", "jira", "confluence", "trello",
       "asana", "project management"], 10),
    Category("architecture",
      ["microservices", "rest api", "graphql", "websockets", "grpc",
       "event-driven", "serverless", "monolithic", "distributed systems"], 13),
    Category("security",
      ["oauth", "jwt", "security", "authentication", "authorization",
       "encryption", "ssl", "tls", "penetration testing"], 12),
    Category("soft_skills",
      ["leadership", "team lead", "management", "communication",
       "problem solving", "analytical", "teamwork", "collaboration",
       "mentoring", "presentation", "stakeholder management"], 11),
    Category("methodologies",
      ["ci/cd", "continuous integration", "continuous deployment",
       "devops", "design patterns", "solid principles", "clean code"], 10)
  ]

  /** The entries of one category, in its term order. */
  function TermEntries(c: Category): seq<Entry> {
    Entries(c.terms, c.weight)
  }

  function Entries(terms: seq<string>, w: nat): (es: seq<Entry>)
    ensures |es| == |terms|
  {
    if terms == [] then [] else Entries(terms[..|terms| - 1], w) + [Entry(terms[|terms| - 1], w)]
  }

  lemma EntriesAt(terms: seq<string>, w: nat, i: nat)
    requires i < |terms|
    ensures Entries(terms, w)[i] == Entry(terms[i], w)
  {
    if i < |terms| - 1 {
      EntriesAt(terms[..|terms| - 1], w, i);
    }
  }

  lemma EntriesSnoc(terms: seq<string>, w: nat, k: nat)
    requires k < |terms|
    ensures Entries(terms[..k + 1], w) == Entries(terms[..k], w) + [Entry(terms[k], w)]
  {
    assert terms[..k + 1][..k] == terms[..k];
  }

  /** All entries, category after category, the order the scoring loop visits them. */
  function Flatten(cats: seq<Category>): seq<Entry> {
    if cats == [] then [] else Flatten(cats[..|cats| - 1]) + TermEntries(cats[|cats| - 1])
  }

  lemma FlattenSnoc(cats: seq<Category>, c: Category)
    ensures Flatten(cats + [c]) == Flatten(cats) + TermEntries(c)
  {
    assert (cats + [c])[..|cats|] == cats;
  }

  predicate WeightsInRange(cats: seq<Category>) {
    forall i :: 0 <= i < |cats| ==> 10 <= cats[i].weight <= 15
  }

  /** Every source weight lies in 1.0..1.5. */
  lemma CategoryWeights()
    ensures |Categories| == 15 && WeightsInRange(Categories)
  {
  }

  /** Flattening keeps every category's weight, so every entry weighs 1.0..1.5. */
  lemma {:induction false} FlattenWeights(cats: seq<Category>)
    requires WeightsInRange(cats)
    ensures forall k :: 0 <= k < |Flatten(cats)| ==> 10 <= Flatten(cats)[k].weight <= 15
  {
    if cats != [] {
      var init, last := cats[..|cats| - 1], cats[|cats| - 1];
      assert WeightsInRange(init);
      FlattenWeights(init);
      forall k | 0 <= k < |Flatten(cats)| ensures 10 <= Flatten(cats)[k].weight <= 15 {
        if k >= |Flatten(init)| {
          EntriesAt(last.terms, last.weight, k - |Flatten(init)|);
        }
      }
    }
  }

  /** `swift` and `kotlin` belong to two categories each; both places count. */
  lemma DuplicatedTerms()
    ensures Entry("swift", 15) in TermEntries(Categories[0]) && Entry("swift", 13) in TermEntries(Categories[3])
    ensures Entry("kotlin", 15) in TermEntries(Categories[0]) && Entry("kotlin", 13) in TermEntries(Categories[3])
  {
    EntriesAt(Categories[0].terms, 15, 10);
    EntriesAt(Categories[3].terms, 13, 4);
    EntriesAt(Categories[0].terms, 15, 11);
    EntriesAt(Categories[3].terms, 13, 5);
  }
}
