/**
 * The static question catalogue (`QUESTIONS_BANK`) and question selection
 * (`_pick_question`). The difficulty label given to selection is an arbitrary
 * string; the random pick from the candidate pool is an index argument.
 */
module QuestionBank {
  import opened Identifiers

  /** One (prompt, ideal answer) pair of the catalogue. */
  datatype Entry = Entry(prompt: string, ideal: string)

  /** A pool element: an entry tagged with the level it is served under. */
  datatype Candidate = Candidate(text: string, answer: string, level: string)

  /** A drawn question record. */
  datatype Question = Question(id: string, text: string, difficulty: string, correctAnswer: string)

  const MixedLabel: string := "Mixed"

  /** The levels a Mixed pool is built from, in the order they are visited. */
  const LevelOrder: seq<string> := ["Easy", "Intermediate", "Advanced"]

  /** `QUESTIONS_BANK`: level label to its ordered entries. */
  const Bank: map<string, seq<Entry>> := map[
    "Easy" := [
      Entry("Explain the difference between HTTP and HTTPS.",
            "HTTPS is HTTP over TLS providing encryption, integrity, and authentication."),
      Entry("What is a REST API?",
            "An architectural style using stateless communication over HTTP with resources identified by URIs.")
    ],
    "Intermediate" := [
      Entry("Describe how you would design a URL shortener.",
            "Use hash/id mapping, datastore, caching, redirect service, rate limiting, and analytics."),
      Entry("Explain CAP theorem.",
            "In distributed systems you can only have two of Consistency, Availability, and Partition tolerance.")
    ],
    "Advanced" := [
      Entry("How does a garbage collector work in managed runtimes?",
            "It tracks object reachability, reclaims unreachable memory via algorithms like mark-sweep, generational GC."),
      Entry("What strategies would you use to scale a write-heavy database?",
            "Sharding, write queues, batching, eventual consistency, appropriate indexes, partitioning.")
    ]
  ]

  /** The question served when the requested label has no entries. */
  function Fallback(difficulty: string): (c: Candidate)
    ensures c.level == difficulty
    ensures forall k :: k in Bank ==> Entry(c.text, c.answer) !in Bank[k]
  {
    Candidate("Tell me about yourself.",
              "Give a concise summary of your background, achievements, and goals.",
              difficulty)
  }

  /** The catalogue's keys are exactly the three concrete levels; Mixed is not one. */
  lemma BankKeys()
    ensures Bank.Keys == {"Easy", "Intermediate", "Advanced"}
    ensures MixedLabel !in Bank
    ensures forall k :: k in LevelOrder <==> k in Bank
  {
  }

  /** The list comprehension `[(q, a, level) for q, a in entries]`. */
  function Tagged(entries: seq<Entry>, level: string): (r: seq<Candidate>)
    ensures |r| == |entries|
    ensures forall i :: 0 <= i < |r| ==> Entry(r[i].text, r[i].answer) == entries[i] && r[i].level == level
  {
    seq(|entries|, i requires 0 <= i < |entries| => Candidate(entries[i].prompt, entries[i].ideal, level))
  }

  /** `QUESTIONS_BANK.get(name, [])`. */
  function Lookup(name: string): (r: seq<Entry>)
    ensures r == [] <==> name !in Bank
    ensures name in Bank ==> r == Bank[name]
  {
    if name in Bank then Bank[name] else []
  }

  /** What the Mixed loop has gathered after visiting `levels`, in order. */
  function Gathered(levels: seq<string>): seq<Candidate>
    requires forall k :: k in levels ==> k in Bank
  {
    if levels == [] then []
    else Gathered(levels[..|levels| - 1]) + Tagged(Bank[levels[|levels| - 1]], levels[|levels| - 1])
  }

  /**
   * The candidate pool, stated case by case: every level's entries for Mixed,
   * a known level's own entries, and the single fallback otherwise.
   */
  function Pool(difficulty: string): (pool: seq<Candidate>)
    ensures |pool| == if difficulty == MixedLabel then 6 else if difficulty in Bank then 2 else 1
  {
    if difficulty == MixedLabel then
      Tagged(Bank["Easy"], "Easy") + Tagged(Bank["Intermediate"], "Intermediate") + Tagged(Bank["Advanced"], "Advanced")
    else if difficulty in Bank then
      Tagged(Bank[difficulty], difficulty)
    else
      [Fallback(difficulty)]
  }

  /** Builds the candidate pool the way `_pick_question` does. */
  method BuildPool(difficulty: string) returns (pool: seq<Candidate>)
    ensures pool == Pool(difficulty)
    ensures pool != []
  {
    pool := [];
    if difficulty == MixedLabel {
      for n := 0 to |LevelOrder|
        invariant pool == Gathered(LevelOrder[..n])
      {
        var k := LevelOrder[n];
        assert LevelOrder[..n + 1][..n] == LevelOrder[..n];
        pool := pool + Tagged(Bank[k], k);
      }
      assert LevelOrder[..|LevelOrder|] == LevelOrder;
      assert LevelOrder[..2] == ["Easy", "Intermediate"];
      assert LevelOrder[..1] == ["Easy"];
      assert LevelOrder[..0] == [];
    } else {
      pool := Tagged(Lookup(difficulty), difficulty);
    }
    if pool == [] {
      pool := [Fallback(difficulty)];
    }
  }

  /**
   * `_pick_question(difficulty)` with `random.choice` resolved to index
   * `choice` of the pool and the question identifier's suffix drawn as `suffix`.
   */
  method PickQuestion(difficulty: string, choice: nat, suffix: string) returns (q: Question)
    requires choice < |Pool(difficulty)|
    requires IsSuffix(suffix)
    ensures q.id == MakeId(QuestionPrefix, suffix)
    ensures Candidate(q.text, q.correctAnswer, q.difficulty) == Pool(difficulty)[choice]
    ensures difficulty != MixedLabel ==> q.difficulty == difficulty
    ensures difficulty == MixedLabel ==> q.difficulty in LevelOrder
  {
    var pool := BuildPool(difficulty);
    PoolLevels(difficulty, choice);
    var c := pool[choice];
    q := Question(MakeId(QuestionPrefix, suffix), c.text, c.level, c.answer);
  }

  /** Selection never fails: every label has a non-empty pool. */
  lemma PoolNonEmpty(difficulty: string)
    ensures |Pool(difficulty)| >= 1
  {
  }

  /** A known level's pool is that level's entries, in catalogue order, tagged with the level. */
  lemma KnownLevelPool(level: string)
    requires level in LevelOrder
    ensures |Pool(level)| == |Bank[level]| == 2
    ensures forall i :: 0 <= i < |Pool(level)| ==>
      Pool(level)[i] == Candidate(Bank[level][i].prompt, Bank[level][i].ideal, level)
  {
  }

  /** The Mixed pool is the three level pools one after another: Easy, Intermediate, Advanced. */
  lemma MixedPool()
    ensures Pool(MixedLabel) == Pool("Easy") + Pool("Intermediate") + Pool("Advanced")
    ensures |Pool(MixedLabel)| == 6
  {
  }

  /** A label outside the catalogue gets the one fallback question, tagged with that label. */
  lemma UnknownLabelPool(name: string)
    requires name != MixedLabel && name !in Bank
    ensures Pool(name) == [Fallback(name)]
  {
  }

  /**
   * The tag of every pool element: the requested name unless Mixed was
   * asked for, and one of the three concrete levels (never Mixed) if it was.
   */
  lemma PoolLevels(difficulty: string, i: nat)
    requires i < |Pool(difficulty)|
    ensures difficulty != MixedLabel ==> Pool(difficulty)[i].level == difficulty
    ensures difficulty == MixedLabel ==>
      Pool(difficulty)[i].level in LevelOrder && Pool(difficulty)[i].level != MixedLabel
  {
  }

  /**
   * Every pool element is a catalogue entry filed under its own tag, or the
   * fallback for a name the catalogue does not have.
   */
  lemma PoolProvenance(difficulty: string, i: nat)
    requires i < |Pool(difficulty)|
    ensures var c := Pool(difficulty)[i];
      (c.level in Bank && Entry(c.text, c.answer) in Bank[c.level]) ||
      (difficulty !in Bank && c == Fallback(difficulty))
  {
    var c := Pool(difficulty)[i];
    if difficulty == MixedLabel {
      var e := Tagged(Bank["Easy"], "Easy");
      var m := Tagged(Bank["Intermediate"], "Intermediate");
      var a := Tagged(Bank["Advanced"], "Advanced");
      if i < 2 {
        assert c == e[i];
        assert Entry(c.text, c.answer) == Bank["Easy"][i];
      } else if i < 4 {
        assert c == m[i - 2];
        assert Entry(c.text, c.answer) == Bank["Intermediate"][i - 2];
      } else {
        assert c == a[i - 4];
        assert Entry(c.text, c.answer) == Bank["Advanced"][i - 4];
      }
    } else if difficulty in Bank {
      assert Entry(c.text, c.answer) == Bank[difficulty][i];
    }
  }

  /** Every concrete level can come out of a Mixed draw. */
  lemma MixedCoversLevels(level: string)
    requires level in LevelOrder
    ensures exists i :: 0 <= i < |Pool(MixedLabel)| && Pool(MixedLabel)[i].level == level
  {
    var p := Pool(MixedLabel);
    if level == "Easy" {
      assert p[0].level == level;
    } else if level == "Intermediate" {
      assert p[2].level == level;
    } else {
      assert p[4].level == level;
    }
  }
}
