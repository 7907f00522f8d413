/**
 * Death detection: the keyword matcher that decides whether recognised screen
 * text announces a death, and the streak counter that confirms a death only
 * after enough consecutive frames matched.
 *
 * The OCR engine is outside the model: a frame is the text it recognised in
 * the two thresholded images the detector builds (or the error it raised).
 */
module Detector {
  import opened Wrappers
  import opened Text
  import opened ConfigStore

  /** The keywords used when the current game's settings name none. */
  const DefaultKeywords: seq<string> := [
    "YOUDIED", "YOU DIED", "Y0UDIED", "YOUD1ED", "Y0UD1ED",
    "ТЫМЕРТВ", "ТЫ МЕРТВ", "ТЫМЁРТВ",
    "YOUDLED", "YOUOIED", "Y0UD13D"
  ]

  const DefaultTesseractConfig: string := "--oem 3 --psm 6"

  // ----- keyword matching -----

  /** The upper-cased text with everything but letters and digits dropped. */
  function Normalise(text: string): (r: string)
    ensures forall i :: 0 <= i < |r| ==> IsAlnum(r[i]) && UpperChar(r[i]) == r[i]
  {
    KeepAlnum(Upper(text))
  }

  /** The OCR confusion table: a digit the engine reads in place of a letter. */
  function FuzzyChar(c: char): char
  {
    match c
    case '0' => 'O'
    case '1' => 'I'
    case '3' => 'E'
    case '5' => 'S'
    case '7' => 'T'
    case _ => c
  }

  /** The replace chain applied to normalised text when fuzzy matching is on. */
  function Correct(s: string): string
  {
    ReplaceChar(ReplaceChar(ReplaceChar(ReplaceChar(ReplaceChar(s, '0', 'O'), '1', 'I'), '3', 'E'), '5', 'S'), '7', 'T')
  }

  /** The replace chain corrects every character through the confusion table and nothing else. */
  lemma CorrectPointwise(s: string)
    ensures |Correct(s)| == |s|
    ensures forall i :: 0 <= i < |s| ==> Correct(s)[i] == FuzzyChar(s[i])
  {
  }

  /** Corrected text holds none of the digits 0, 1, 3, 5, 7, so correcting twice is correcting once. */
  lemma CorrectIdempotent(s: string)
    ensures forall i :: 0 <= i < |Correct(s)| ==> Correct(s)[i] !in "01357"
    ensures Correct(Correct(s)) == Correct(s)
  {
    CorrectPointwise(s);
    CorrectPointwise(Correct(s));
  }

  /** The text the keywords are also searched in: corrected when fuzzy matching is on. */
  function Corrected(normalised: string, fuzzy: bool): string
  {
    if fuzzy then Correct(normalised) else normalised
  }

  /** A keyword as it is searched for: spaces deleted, upper-cased. */
  function KeywordForm(keyword: string): string
  {
    Upper(RemoveChar(keyword, ' '))
  }

  predicate KeywordMatches(text: string, keyword: string, fuzzy: bool)
  {
    Contains(Normalise(text), KeywordForm(keyword)) ||
    Contains(Corrected(Normalise(text), fuzzy), KeywordForm(keyword))
  }

  /** `_contains_keyword` as a predicate: some keyword matches. */
  predicate MatchesAny(text: string, keywords: seq<string>, fuzzy: bool)
  {
    exists i :: 0 <= i < |keywords| && KeywordMatches(text, keywords[i], fuzzy)
  }

  /** With fuzzy matching off, the text matches exactly when some keyword form occurs in the normalised text. */
  lemma MatchesWithoutFuzzy(text: string, keywords: seq<string>)
    ensures MatchesAny(text, keywords, false) <==>
      exists i, j :: 0 <= i < |keywords| && OccursAt(Normalise(text), KeywordForm(keywords[i]), j)
  {
    forall i | 0 <= i < |keywords| {
      ContainsIff(Normalise(text), KeywordForm(keywords[i]));
    }
  }

  /** Fuzzy matching only adds matches: whatever matches without it matches with it. */
  lemma FuzzyOnlyWidens(text: string, keywords: seq<string>)
    ensures MatchesAny(text, keywords, false) ==> MatchesAny(text, keywords, true)
  {
  }

  // ----- settings -----

  datatype Settings = Settings(requiredStreak: int, fuzzy: bool, keywords: seq<string>, tesseractConfig: string)

  /** All the strings of a list value, or `None` when it holds something else. */
  function Strings(items: seq<Value>): Option<seq<string>>
  {
    if items == [] then Some([])
    else if items[0].Str? then
      match Strings(items[1..])
      case Some(rest) => Some([items[0].s] + rest)
      case None => None
    else None
  }

  /** The dotted keys `_load_settings` reads, split at their dots. */
  const StreakPath: seq<string> := ["settings", "consecutive_hits"]
  const FuzzyPath: seq<string> := ["settings", "fuzzy_ocr_matching"]
  const GamePath: seq<string> := ["current_game"]

  /** `games.{current_game}` split at its dots. */
  function GameConfigPath(gameName: string): seq<string>
  {
    ["games"] + Split(gameName, '.')
  }

  /** `get` splits the streak key into the streak path. */
  lemma StreakKeySplit()
    ensures Split("settings.consecutive_hits", '.') == StreakPath
  {
    var k := "settings" + ['.'] + "consecutive_hits";
    assert k == "settings.consecutive_hits";
    SplitTwo("settings", '.', "consecutive_hits");
  }

  /** `get` splits the fuzzy-matching key into the fuzzy path. */
  lemma FuzzyKeySplit()
    ensures Split("settings.fuzzy_ocr_matching", '.') == FuzzyPath
  {
    var k := "settings" + ['.'] + "fuzzy_ocr_matching";
    assert k == "settings.fuzzy_ocr_matching";
    SplitTwo("settings", '.', "fuzzy_ocr_matching");
  }

  /** `get` splits `current_game` and `games.{name}` into the game paths. */
  lemma GameKeysSplit(gameName: string)
    ensures Split("current_game", '.') == GamePath
    ensures Split("games." + gameName, '.') == GameConfigPath(gameName)
  {
    assert '.' !in "current_game";
    SplitCons("games", '.', gameName);
    assert "games." + gameName == "games" + ['.'] + gameName;
  }

  /** `_load_settings`: the streak length, fuzzy flag, and the current game's keywords and OCR options. */
  function LoadSettings(data: map<string, Value>): Settings
  {
    var streak := GetPath(data, StreakPath, Int(2));
    var fuzzy := GetPath(data, FuzzyPath, Bool(true));
    var game := GetPath(data, GamePath, Str("Bloodborne"));
    var gameName := if game.Str? then game.s else "Bloodborne";
    var gameConfig := GetPath(data, GameConfigPath(gameName), Dict(map[]));
    var stored := if gameConfig.Dict? then gameConfig.fields else map[];
    Settings(
      match streak
      case Int(n) => n
      case Bool(b) => if b then 1 else 0
      case _ => 2,
      Truthy(fuzzy),
      if "keywords" in stored && stored["keywords"].List? && Strings(stored["keywords"].items).Some?
      then Strings(stored["keywords"].items).value
      else DefaultKeywords,
      if "tesseract_config" in stored && stored["tesseract_config"].Str?
      then stored["tesseract_config"].s
      else DefaultTesseractConfig)
  }

  /** Settings with no `settings`, `current_game` or `games` entries give the built-in detector settings. */
  lemma LoadSettingsDefaults(data: map<string, Value>)
    requires "settings" !in data && "current_game" !in data && "games" !in data
    ensures LoadSettings(data) == Settings(2, true, DefaultKeywords, DefaultTesseractConfig)
  {
    assert GameConfigPath("Bloodborne")[0] == "games";
  }

  /** The built-in settings tree holds no detector entries, so a fresh store gives the built-in detector settings. */
  lemma DefaultConfigSettings()
    ensures LoadSettings(Defaults()) == Settings(2, true, DefaultKeywords, DefaultTesseractConfig)
  {
    LoadSettingsDefaults(Defaults());
  }

  // ----- streak confirmation -----

  datatype StepResult = StepResult(confirmed: bool, hits: int)

  /** `_confirm_detection` on the counter: count the hit (or reset on a miss), confirm at the required streak, then reset. */
  function Step(hits: int, required: int, detected: bool): StepResult
  {
    var counted := if detected then hits + 1 else 0;
    if counted >= required then StepResult(true, 0) else StepResult(false, counted)
  }

  /** Between calls the counter stays in 0..N-1 (and at 0 when N is not positive). */
  predicate CounterInRange(hits: int, required: int)
  {
    0 <= hits && (hits == 0 || hits < required)
  }

  /** A step keeps the counter in range; with N >= 1 it confirms exactly on the hit that brings the counter to N. */
  lemma StepFacts(hits: int, required: int, detected: bool)
    requires CounterInRange(hits, required)
    ensures CounterInRange(Step(hits, required, detected).hits, required)
    ensures required >= 1 ==> (Step(hits, required, detected).confirmed <==> detected && hits + 1 == required)
    ensures !detected ==> Step(hits, required, detected).hits == 0
  {
  }

  /** With N <= 0 every call confirms, hit or miss. */
  lemma NonPositiveStreakAlwaysConfirms(hits: int, required: int, detected: bool)
    requires required <= 0 && hits >= 0
    ensures Step(hits, required, detected).confirmed
  {
  }

  /** The counter after a run of hits and misses, starting from 0. */
  function Counter(required: int, ds: seq<bool>): int
  {
    if ds == [] then 0 else Step(Counter(required, ds[..|ds| - 1]), required, ds[|ds| - 1]).hits
  }

  /** Whether the last call of a run confirmed. */
  function LastConfirmed(required: int, ds: seq<bool>): bool
    requires ds != []
  {
    Step(Counter(required, ds[..|ds| - 1]), required, ds[|ds| - 1]).confirmed
  }

  /** The number of hits at the end of a run since its last miss. */
  function Streak(ds: seq<bool>): nat
  {
    if ds == [] || !ds[|ds| - 1] then 0 else Streak(ds[..|ds| - 1]) + 1
  }

  /**
   * The counter is the current streak of hits modulo N, and a call confirms
   * exactly when the streak it ends is a positive multiple of N.
   */
  lemma {:induction false} CounterIsStreakModulo(required: int, ds: seq<bool>)
    requires required >= 1
    ensures Counter(required, ds) == Streak(ds) % required
    ensures ds != [] ==> (LastConfirmed(required, ds) <==> Streak(ds) > 0 && Streak(ds) % required == 0)
  {
    if ds != [] {
      var init := ds[..|ds| - 1];
      CounterIsStreakModulo(required, init);
      if ds[|ds| - 1] {
        ModSucc(Streak(init), required);
      }
    }
  }

  lemma {:induction false} MulAtLeast(n: int, d: int)
    requires n >= 1
    ensures d >= 1 ==> n * d >= n
    decreases if d > 0 then d else 0
  {
    if d > 1 {
      MulAtLeast(n, d - 1);
      assert n * d == n * (d - 1) + n;
    }
  }

  /** The remainder is the unique `r` in 0..n-1 with `s == n * q + r`. */
  lemma ModUnique(s: int, n: int, q: int, r: int)
    requires n >= 1 && 0 <= r < n && s == n * q + r
    ensures s % n == r
  {
    var q0, r0 := s / n, s % n;
    assert n * (q0 - q) == r - r0;
    assert n * (q - q0) == r0 - r;
    MulAtLeast(n, q0 - q);
    MulAtLeast(n, q - q0);
  }

  lemma ModSucc(s: nat, n: int)
    requires n >= 1
    ensures (s + 1) % n == if s % n + 1 == n then 0 else s % n + 1
  {
    var q, r := s / n, s % n;
    if r + 1 == n {
      ModUnique(s + 1, n, q + 1, 0);
    } else {
      ModUnique(s + 1, n, q, r + 1);
    }
  }

  /** N consecutive hits after a miss (or from the start) confirm on the N-th and not before. */
  lemma StreakConfirmsOnNth(required: int, prefix: seq<bool>, k: nat)
    requires required >= 1 && 1 <= k <= required
    requires prefix == [] || !prefix[|prefix| - 1]
    ensures LastConfirmed(required, prefix + seq(k, _ => true)) <==> k == required
  {
    var ds := prefix + seq(k, _ => true);
    StreakOfHits(prefix, k);
    CounterIsStreakModulo(required, ds);
  }

  lemma {:induction false} StreakOfHits(prefix: seq<bool>, k: nat)
    requires prefix == [] || !prefix[|prefix| - 1]
    ensures Streak(prefix + seq(k, _ => true)) == k
  {
    if k > 0 {
      var ds := prefix + seq(k, _ => true);
      assert ds[..|ds| - 1] == prefix + seq(k - 1, _ => true);
      StreakOfHits(prefix, k - 1);
    } else {
      assert prefix + seq(k, _ => true) == prefix;
    }
  }

  /** With N = 2, hit, miss, hit confirms at no call. */
  lemma InterruptedStreakNeverConfirms()
    ensures !LastConfirmed(2, [true])
    ensures !LastConfirmed(2, [true, false])
    ensures !LastConfirmed(2, [true, false, true])
  {
    assert [true, false][..1] == [true];
    assert [true, false, true][..2] == [true, false];
  }

  // ----- OCR candidates -----

  /** What the OCR engine produced for one preprocessed image. */
  datatype Recognition = Recognised(text: string) | Raised(message: string)

  /** The OCR results for one frame: the bright-text threshold image, then the inverted one. */
  datatype Frame = Frame(bright: Recognition, inverted: Recognition)

  function Candidates(frame: Frame): seq<Recognition>
  {
    [frame.bright, frame.inverted]
  }

  /** `filter(None, texts)`: the non-empty strings, in order. */
  function NonEmpty(texts: seq<string>): (r: seq<string>)
    ensures |r| <= |texts|
  {
    if texts == [] then []
    else (if texts[0] == "" then [] else [texts[0]]) + NonEmpty(texts[1..])
  }

  datatype OcrResult = OcrResult(detected: bool, text: string)

  /** The candidate loop: the first match wins, an error ends the search, otherwise the texts seen so far are joined. */
  function Scan(candidates: seq<Recognition>, tried: seq<string>, keywords: seq<string>, fuzzy: bool): OcrResult
    decreases |candidates|
  {
    if candidates == [] then OcrResult(false, Take(Join(NonEmpty(tried), " | "), 50))
    else match candidates[0]
      case Raised(m) => OcrResult(false, "error:" + Take(m, 30))
      case Recognised(t) =>
        if MatchesAny(t, keywords, fuzzy) then OcrResult(true, Take(Strip(t), 50))
        else Scan(candidates[1..], tried + [Strip(t)], keywords, fuzzy)
  }

  /** Candidate `i` matches and every candidate before it was recognised without a match. */
  predicate FirstMatchAt(candidates: seq<Recognition>, keywords: seq<string>, fuzzy: bool, i: int)
  {
    0 <= i < |candidates| && candidates[i].Recognised? && MatchesAny(candidates[i].text, keywords, fuzzy) &&
    forall j :: 0 <= j < i ==> candidates[j].Recognised? && !MatchesAny(candidates[j].text, keywords, fuzzy)
  }

  /** Detection succeeds exactly when some candidate matches before any OCR error, and the text is at most 50 characters. */
  lemma {:induction false} ScanDetectsIff(candidates: seq<Recognition>, tried: seq<string>, keywords: seq<string>, fuzzy: bool)
    ensures Scan(candidates, tried, keywords, fuzzy).detected <==> exists i :: FirstMatchAt(candidates, keywords, fuzzy, i)
    ensures |Scan(candidates, tried, keywords, fuzzy).text| <= 50
    decreases |candidates|
  {
    if candidates != [] {
      if candidates[0].Recognised? && MatchesAny(candidates[0].text, keywords, fuzzy) {
        assert FirstMatchAt(candidates, keywords, fuzzy, 0);
      } else {
        if i :| FirstMatchAt(candidates, keywords, fuzzy, i) {
          assert i != 0;
        }
        if candidates[0].Recognised? {
          var rest := candidates[1..];
          ScanDetectsIff(rest, tried + [Strip(candidates[0].text)], keywords, fuzzy);
          if i :| FirstMatchAt(rest, keywords, fuzzy, i) {
            assert FirstMatchAt(candidates, keywords, fuzzy, i + 1);
          }
          if i :| FirstMatchAt(candidates, keywords, fuzzy, i) {
            assert FirstMatchAt(rest, keywords, fuzzy, i - 1);
          }
        }
      }
    }
  }

  /** The report of a calibration test: no streak, the bright image only. */
  datatype TestReport = TestReport(ocrMatch: bool, ocrText: string, keywordsFound: seq<string>, fuzzyEnabled: bool)

  /** The keywords listed as found: those whose space-free form occurs in the normalised text. */
  function FoundKeywords(normalised: string, keywords: seq<string>): seq<string>
  {
    if keywords == [] then []
    else (if Contains(normalised, RemoveChar(keywords[0], ' ')) then [keywords[0]] else [])
         + FoundKeywords(normalised, keywords[1..])
  }

  /** One keyword's share of the found list, taken from the front of the remaining keywords. */
  lemma FoundKeywordsStep(normalised: string, keywords: seq<string>, i: int)
    requires 0 <= i < |keywords|
    ensures FoundKeywords(normalised, keywords[i..]) ==
      (if Contains(normalised, RemoveChar(keywords[i], ' ')) then [keywords[i]] else []) +
      FoundKeywords(normalised, keywords[i + 1..])
  {
    assert keywords[i..][1..] == keywords[i + 1..];
  }

  /** A string found in normalised text is already upper-case. */
  lemma {:induction false} UpperOfOccurring(s: string, k: string, j: int)
    requires OccursAt(s, k, j)
    requires forall i :: 0 <= i < |s| ==> UpperChar(s[i]) == s[i]
    ensures Upper(k) == k
  {
    assert forall i :: 0 <= i < |k| ==> k[i] == s[j + i];
  }

  /** Every keyword the test lists as found is one the matcher accepts. */
  lemma {:induction false} FoundKeywordsMatch(text: string, keywords: seq<string>, fuzzy: bool)
    ensures forall kw :: kw in FoundKeywords(Normalise(text), keywords) ==> kw in keywords && KeywordMatches(text, kw, fuzzy)
  {
    if keywords != [] {
      FoundKeywordsMatch(text, keywords[1..], fuzzy);
      var kw := keywords[0];
      var n := Normalise(text);
      if Contains(n, RemoveChar(kw, ' ')) {
        ContainsIff(n, RemoveChar(kw, ' '));
        var j :| OccursAt(n, RemoveChar(kw, ' '), j);
        UpperOfOccurring(n, RemoveChar(kw, ' '), j);
      }
    }
  }

  /** The converse fails: a lower-case keyword matches but is not listed. */
  lemma FoundKeywordsCanMissMatches()
    ensures KeywordMatches("DIED", "died", false)
    ensures FoundKeywords(Normalise("DIED"), ["died"]) == []
  {
    NormaliseDied();
    KeywordFormDied();
    assert Contains("DIED", "DIED") by {
      assert StartsWith("DIED", "DIED");
    }
    assert !Contains("DIED", "died") by {
      assert "died"[0] !in "DIED";
      NoFirstCharNoMatch("DIED", "died");
    }
  }

  /** The upper-case word normalises to itself. */
  lemma NormaliseDied()
    ensures Normalise("DIED") == "DIED"
  {
    assert Upper("DIED") == "DIED";
    assert KeepAlnum("D") == "D";
    assert KeepAlnum("ED") == "E" + KeepAlnum("D");
    assert KeepAlnum("IED") == "I" + KeepAlnum("ED");
    assert KeepAlnum("DIED") == "D" + KeepAlnum("IED");
  }

  /** The lower-case keyword's space-free form is itself, and it is searched for upper-cased. */
  lemma KeywordFormDied()
    ensures RemoveChar("died", ' ') == "died"
    ensures KeywordForm("died") == "DIED"
  {
    assert RemoveChar("d", ' ') == "d";
    assert RemoveChar("ed", ' ') == "e" + RemoveChar("d", ' ');
    assert RemoveChar("ied", ' ') == "i" + RemoveChar("ed", ' ');
    assert RemoveChar("died", ' ') == "d" + RemoveChar("ied", ' ');
  }

  /** A keyword whose first character never appears in the text is not found. */
  lemma {:induction false} NoFirstCharNoMatch(s: string, k: string)
    requires |k| > 0 && k[0] !in s
    ensures !Contains(s, k)
    decreases |s|
  {
    if |k| <= |s| {
      assert s[..|k|][0] == s[0];
    }
    if |s| > 0 {
      assert forall c :: c in s[1..] ==> c in s;
      NoFirstCharNoMatch(s[1..], k);
    }
  }

  class DeathDetector {
    var config: Config
    var consecutiveHits: int
    var requiredStreak: int
    var fuzzyMatching: bool
    var keywords: seq<string>
    var tesseractConfig: string
    /** Whether the OCR engine could be started (probed once, outside the model). */
    const ocrAvailable: bool
    var lastMethod: Option<string>
    var lastConfidence: real

    predicate Valid()
      reads this
    {
      CounterInRange(consecutiveHits, requiredStreak)
    }

    function CurrentSettings(): Settings
      reads this
    {
      Settings(requiredStreak, fuzzyMatching, keywords, tesseractConfig)
    }

    constructor(config: Config, ocrAvailable: bool)
      ensures Valid()
      ensures this.config == config && this.ocrAvailable == ocrAvailable
      ensures CurrentSettings() == LoadSettings(config.data) && consecutiveHits == 0
      ensures lastMethod == None && lastConfidence == 0.0
    {
      this.config := config;
      this.ocrAvailable := ocrAvailable;
      var s := LoadSettings(config.data);
      consecutiveHits := 0;
      requiredStreak := s.requiredStreak;
      fuzzyMatching := s.fuzzy;
      keywords := s.keywords;
      tesseractConfig := s.tesseractConfig;
      lastMethod := None;
      lastConfidence := 0.0;
    }

    /** `reload`: read the settings of the given store and restart the streak. */
    method Reload(config: Config)
      modifies this
      ensures Valid()
      ensures this.config == config && CurrentSettings() == LoadSettings(config.data) && consecutiveHits == 0
      ensures lastMethod == old(lastMethod) && lastConfidence == old(lastConfidence)
    {
      this.config := config;
      var s := LoadSettings(config.data);
      consecutiveHits := 0;
      requiredStreak := s.requiredStreak;
      fuzzyMatching := s.fuzzy;
      keywords := s.keywords;
      tesseractConfig := s.tesseractConfig;
    }

    /** `_contains_keyword`: tries the keywords in order. */
    method ContainsKeyword(text: string) returns (found: bool)
      ensures found <==> MatchesAny(text, keywords, fuzzyMatching)
      ensures found <==> exists i, j :: 0 <= i < |keywords| &&
                           (OccursAt(Normalise(text), KeywordForm(keywords[i]), j) ||
                            OccursAt(Corrected(Normalise(text), fuzzyMatching), KeywordForm(keywords[i]), j))
    {
      var normalised := Normalise(text);
      var corrected := if fuzzyMatching then Correct(normalised) else normalised;
      var i := 0;
      found := false;
      while i < |keywords|
        invariant 0 <= i <= |keywords|
        invariant forall k :: 0 <= k < i ==> !KeywordMatches(text, keywords[k], fuzzyMatching)
      {
        var form := Upper(RemoveChar(keywords[i], ' '));
        if Contains(normalised, form) || Contains(corrected, form) {
          found := true;
          break;
        }
        i := i + 1;
      }
      forall k | 0 <= k < |keywords|
        ensures KeywordMatches(text, keywords[k], fuzzyMatching) <==>
                exists j :: OccursAt(normalised, KeywordForm(keywords[k]), j) || OccursAt(corrected, KeywordForm(keywords[k]), j)
      {
        ContainsIff(normalised, KeywordForm(keywords[k]));
        ContainsIff(corrected, KeywordForm(keywords[k]));
      }
    }

    /** The candidate loop of `_ocr_detect`. */
    method OcrDetect(frame: Frame) returns (r: OcrResult)
      ensures r == Scan(Candidates(frame), [], keywords, fuzzyMatching)
    {
      var candidates := Candidates(frame);
      var allText: seq<string> := [];
      var i := 0;
      while i < |candidates|
        invariant 0 <= i <= |candidates|
        invariant Scan(candidates, [], keywords, fuzzyMatching) == Scan(candidates[i..], allText, keywords, fuzzyMatching)
      {
        match candidates[i]
        case Raised(m) =>
          return OcrResult(false, "error:" + Take(m, 30));
        case Recognised(t) =>
          allText := allText + [Strip(t)];
          var hit := ContainsKeyword(t);
          if hit {
            return OcrResult(true, Take(Strip(t), 50));
          }
          assert candidates[i..][1..] == candidates[i + 1..];
          i := i + 1;
      }
      r := OcrResult(false, Take(Join(NonEmpty(allText), " | "), 50));
    }

    /** `_confirm_detection`: advance the streak counter and remember the method and confidence. */
    method ConfirmDetection(detected: bool, confidence: real, detectionMethod: Option<string>)
      returns (confirmed: bool, conf: real)
      modifies this
      ensures var s := Step(old(consecutiveHits), requiredStreak, detected);
        confirmed == s.confirmed && consecutiveHits == s.hits
      ensures conf == confidence && lastConfidence == confidence
      ensures lastMethod == if detected then detectionMethod else None
      ensures old(Valid()) ==> Valid()
      ensures config == old(config) && CurrentSettings() == old(CurrentSettings())
    {
      if detected {
        consecutiveHits := consecutiveHits + 1;
        lastMethod := detectionMethod;
        lastConfidence := confidence;
      } else {
        consecutiveHits := 0;
        lastMethod := None;
        lastConfidence := confidence;
      }
      confirmed := consecutiveHits >= requiredStreak;
      if confirmed {
        consecutiveHits := 0;
      }
      conf := confidence;
    }

    /** Whether `check_death` on this frame would confirm a death now. */
    predicate Confirms(frame: Frame)
      reads this
    {
      Step(consecutiveHits, requiredStreak, ocrAvailable && Scan(Candidates(frame), [], keywords, fuzzyMatching).detected).confirmed
    }

    /**
     * `check_death`: no frame changes nothing; otherwise the frame is a hit
     * when OCR is available and finds a keyword, and the hit or miss goes
     * through the streak counter.
     */
    method CheckDeath(frame: Option<Frame>) returns (confirmed: bool, confidence: real)
      modifies this
      ensures confirmed <==> frame.Some? && old(Confirms(frame.value))
      ensures frame.None? ==>
                !confirmed && confidence == 0.0 && consecutiveHits == old(consecutiveHits) &&
                lastMethod == old(lastMethod) && lastConfidence == old(lastConfidence)
      ensures frame.Some? ==>
        var ocr := Scan(Candidates(frame.value), [], keywords, fuzzyMatching);
        var hit := ocrAvailable && ocr.detected;
        var s := Step(old(consecutiveHits), requiredStreak, hit);
        confirmed == s.confirmed && consecutiveHits == s.hits &&
        confidence == (if hit then 1.0 else 0.0) && lastConfidence == confidence &&
        lastMethod == (if hit then Some("ocr:" + ocr.text) else None)
      ensures old(Valid()) ==> Valid()
      ensures config == old(config) && CurrentSettings() == old(CurrentSettings())
    {
      if frame.None? {
        return false, 0.0;
      }
      if ocrAvailable {
        var ocr := OcrDetect(frame.value);
        if ocr.detected {
          confirmed, confidence := ConfirmDetection(true, 1.0, Some("ocr:" + ocr.text));
          return;
        }
      }
      confirmed, confidence := ConfirmDetection(false, 0.0, None);
    }

    /** The keyword loop of `test_detection`: keywords whose space-free form occurs, in order. */
    method FindKeywords(normalised: string) returns (found: seq<string>)
      ensures found == FoundKeywords(normalised, keywords)
    {
      found := [];
      var i := 0;
      while i < |keywords|
        invariant 0 <= i <= |keywords|
        invariant found + FoundKeywords(normalised, keywords[i..]) == FoundKeywords(normalised, keywords)
      {
        var kw := keywords[i];
        FoundKeywordsStep(normalised, keywords, i);
        if Contains(normalised, RemoveChar(kw, ' ')) {
          found := found + [kw];
        }
        i := i + 1;
      }
      assert keywords[i..] == [];
    }

    /** `test_detection`: match the bright image once, without touching the streak. */
    method TestDetection(frame: Option<Frame>) returns (report: TestReport)
      ensures report.fuzzyEnabled == fuzzyMatching
      ensures (frame.None? || !ocrAvailable || frame.value.bright.Raised?) ==> report == TestReport(false, "", [], fuzzyMatching)
      ensures frame.Some? && ocrAvailable && frame.value.bright.Recognised? ==>
        var t := frame.value.bright.text;
        report == TestReport(MatchesAny(t, keywords, fuzzyMatching), Strip(t), FoundKeywords(Normalise(t), keywords), fuzzyMatching)
    {
      report := TestReport(false, "", [], fuzzyMatching);
      if frame.None? || !ocrAvailable {
        return;
      }
      match frame.value.bright
      case Raised(_) =>
      case Recognised(t) =>
        var hit := ContainsKeyword(t);
        var found := FindKeywords(Normalise(t));
        report := TestReport(hit, Strip(t), found, fuzzyMatching);
    }
  }
}
