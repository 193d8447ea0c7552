/** The deterministic helpers of the chat backend: the text clamp, the sliding-window rate
    limiter in front of web search, and the per-user memory of facts and personality. The
    forbidden-input regular expressions are an uninterpreted predicate; time is a parameter
    in microseconds. */
module GarySafe {
  import opened Util
  import opened PyText

  // ---------------------------------------------------------------- clamp_text

  /** `clamp_text`: the text itself when it fits, otherwise its first `maxLen` characters
      (Python slice semantics, so a negative bound counts from the end) and an ellipsis. */
  function ClampText(s: string, maxLen: int): (r: string)
    ensures |s| <= maxLen ==> r == s
    ensures |s| > maxLen ==> r == SliceTo(s, maxLen) + "..."
    ensures 0 <= maxLen < |s| ==> |r| == maxLen + 3 && s[..maxLen] <= r
    ensures 0 <= maxLen ==> |r| <= maxLen + 3
  {
    if |s| <= maxLen then s else SliceTo(s, maxLen) + "..."
  }

  /** Clamping twice with the same non-negative bound is clamping once. */
  lemma ClampIdempotent(s: string, maxLen: int)
    requires 0 <= maxLen
    ensures ClampText(ClampText(s, maxLen), maxLen) == ClampText(s, maxLen)
  {
    if |s| > maxLen {
      var once := s[..maxLen] + "...";
      assert ClampText(s, maxLen) == once;
      assert once[..maxLen] == s[..maxLen];
    }
  }

  // ---------------------------------------------------------------- rate limiter

  /** `timedelta(minutes=1)` in microseconds. */
  const OneMinute: int := 60_000_000

  /** `WEB_SEARCH_RATE_LIMIT_PER_MIN`. */
  const SearchesPerMinute: int := 6

  /** The comprehension filter `t > cutoff`. */
  function Later(cutoff: int): int -> bool {
    t => t > cutoff
  }

  /** How the gate at the top of `web_search_safe` ends, before the HTTP request. */
  datatype SearchGate = SearchDisabled | RateLimited | InvalidCharacters | Admitted

  /** `re.search(r"[<>\\\x00]", query)`. */
  predicate HasInvalidSearchChar(query: string) {
    exists i :: 0 <= i < |query| && query[i] in {'<', '>', '\\', '\0'}
  }

  /** `_search_timestamps` and the functions that update it. */
  class SearchLimiter {
    var timestamps: seq<int>

    /** At most the per-minute allowance is remembered; the gate keeps this. */
    ghost predicate Valid()
      reads this
    {
      |timestamps| <= SearchesPerMinute
    }

    constructor ()
      ensures Valid()
      ensures timestamps == []
    {
      timestamps := [];
    }

    /** `rate_limit_allows`: forget every timestamp not later than one minute ago, in place,
        then allow when fewer than the allowance remain. */
    method RateLimitAllows(now: int) returns (allowed: bool)
      modifies this`timestamps
      ensures timestamps == Filter(old(timestamps), Later(now - OneMinute))
      ensures IsSubsequence(timestamps, old(timestamps))
      ensures forall i :: 0 <= i < |timestamps| ==> timestamps[i] > now - OneMinute
      ensures allowed <==> |timestamps| < SearchesPerMinute
      ensures old(Valid()) ==> Valid()
    {
      FilterIsSubsequence(timestamps, Later(now - OneMinute));
      timestamps := Filter(timestamps, Later(now - OneMinute));
      allowed := |timestamps| < SearchesPerMinute;
    }

    /** `register_search_timestamp`: one timestamp, the current time, at the end. */
    method RegisterSearchTimestamp(now: int)
      modifies this`timestamps
      ensures timestamps == old(timestamps) + [now]
    {
      timestamps := timestamps + [now];
    }

    /** The gate of `web_search_safe`: no key, then the rate limit (which prunes against the
        clock read at `checkTime`), then the character check; a search that passes is
        registered, with the clock read again at `registerTime`, before its request is sent. */
    method AdmitSearch(checkTime: int, registerTime: int, keyConfigured: bool, query: string) returns (gate: SearchGate)
      requires Valid()
      modifies this`timestamps
      ensures Valid()
      ensures !keyConfigured ==> gate == SearchDisabled && timestamps == old(timestamps)
      ensures keyConfigured ==>
        var kept := Filter(old(timestamps), Later(checkTime - OneMinute));
        && (gate == RateLimited <==> |kept| >= SearchesPerMinute)
        && (gate == InvalidCharacters <==> |kept| < SearchesPerMinute && HasInvalidSearchChar(query))
        && (gate == Admitted <==> |kept| < SearchesPerMinute && !HasInvalidSearchChar(query))
        && timestamps == if gate == Admitted then kept + [registerTime] else kept
      ensures keyConfigured && checkTime <= registerTime ==>
        forall i :: 0 <= i < |timestamps| ==> checkTime - OneMinute < timestamps[i]
    {
      if !keyConfigured {
        return SearchDisabled;
      }
      var allowed := RateLimitAllows(checkTime);
      if !allowed {
        return RateLimited;
      }
      if HasInvalidSearchChar(query) {
        return InvalidCharacters;
      }
      if checkTime <= registerTime {
        AdmittedWithinWindow(timestamps, checkTime, registerTime);
      }
      RegisterSearchTimestamp(registerTime);
      gate := Admitted;
    }
  }

  /** An admission keeps the window: when the pruned list is all within the minute before
      the check and below the allowance, appending a registration time no earlier than the
      check leaves at most six timestamps, all within that minute or later. */
  lemma {:induction false} AdmittedWithinWindow(kept: seq<int>, checkTime: int, registerTime: int)
    requires forall i :: 0 <= i < |kept| ==> kept[i] > checkTime - OneMinute
    requires |kept| < SearchesPerMinute
    requires checkTime <= registerTime
    ensures var after := kept + [registerTime];
      |after| <= SearchesPerMinute && forall i :: 0 <= i < |after| ==> checkTime - OneMinute < after[i]
  {
    var after := kept + [registerTime];
    forall i | 0 <= i < |after| ensures checkTime - OneMinute < after[i] {
      if i < |kept| {
        assert after[i] == kept[i];
      }
    }
  }

  // ---------------------------------------------------------------- memory

  /** The length `remember_fact` and `set_personality` clamp stored text to. */
  const MemoryClamp: int := 1000

  /** A user's memory file as loaded: either key may be missing from the JSON object. */
  datatype MemoryRecord = MemoryRecord(facts: Option<seq<string>>, personality: Option<string>)

  /** `load_memory` for a user without a file. */
  const DefaultMemory: MemoryRecord := MemoryRecord(Some([]), Some(""))

  function Facts(m: MemoryRecord): seq<string> {
    m.facts.GetOr([])
  }

  function Personality(m: MemoryRecord): string {
    m.personality.GetOr("")
  }

  /** `load_memory`: the stored record, or the default one. */
  function LoadMemory(records: map<string, MemoryRecord>, user: string): (m: MemoryRecord)
    ensures user !in records ==> Facts(m) == [] && Personality(m) == "" && m.facts.Some? && m.personality.Some?
    ensures user in records ==> m == records[user]
  {
    if user in records then records[user] else DefaultMemory
  }

  /** The record update in `remember_fact`: the clamped fact is appended (a missing list is
      created first) and nothing else changes. */
  function WithFact(m: MemoryRecord, fact: string): (r: MemoryRecord)
    ensures r.facts.Some? && |Facts(r)| == |Facts(m)| + 1
    ensures Facts(m) <= Facts(r)
    ensures Facts(r)[|Facts(m)|] == ClampText(fact, MemoryClamp)
    ensures r.personality == m.personality
  {
    m.(facts := Some(Facts(m) + [ClampText(fact, MemoryClamp)]))
  }

  /** The record update in `set_personality`: the personality is replaced by the clamped text. */
  function WithPersonality(m: MemoryRecord, personality: string): (r: MemoryRecord)
    ensures r.personality == Some(ClampText(personality, MemoryClamp))
    ensures |Personality(r)| <= MemoryClamp + 3
    ensures r.facts == m.facts
  {
    m.(personality := Some(ClampText(personality, MemoryClamp)))
  }

  /** The number of facts `recall_context` uses. */
  const RecalledFacts: int := 200

  /** The text `recall_context` strips: the personality, a space and the first 200 facts
      joined by spaces. */
  function RecallText(m: MemoryRecord): string {
    Personality(m) + " " + Join(" ", SliceTo(Facts(m), RecalledFacts))
  }

  /** `recall_context`: that text with the whitespace at both ends removed, and nothing else. */
  function RecallContext(m: MemoryRecord): (r: string)
    ensures exists i, j :: OnlySpaceOutside(RecallText(m), i, j) && r == RecallText(m)[i..j]
    ensures r == [] || (!IsSpace(r[0]) && !IsSpace(r[|r| - 1]))
  {
    Strip(RecallText(m))
  }

  /** While fewer than 200 facts are stored, a fact just remembered is recalled, at the very
      end of the context, unless its clamped text begins or ends with whitespace. */
  lemma RecallEndsWithNewFact(m: MemoryRecord, fact: string)
    requires |Facts(m)| < RecalledFacts
    requires var c := ClampText(fact, MemoryClamp); c != [] && !IsSpace(c[0]) && !IsSpace(c[|c| - 1])
    ensures EndsWith(RecallContext(WithFact(m, fact)), ClampText(fact, MemoryClamp))
  {
    var c := ClampText(fact, MemoryClamp);
    var after := WithFact(m, fact);
    assert Facts(after) == Facts(m) + [c];
    assert SliceTo(Facts(after), RecalledFacts) == Facts(after);
    assert EndsWith(RecallText(after), c);
    StripKeepsSuffix(RecallText(after), c);
  }

  /** A user with no memory recalls nothing. */
  lemma RecallDefaultIsEmpty()
    ensures RecallContext(DefaultMemory) == ""
  {
    assert RecallText(DefaultMemory) == " ";
    assert StripLeft(" ") == StripLeft(" "[1..]);
  }

  /** Once 200 facts are stored, remembering another leaves the recalled context as it was:
      the new fact is saved but never recalled. */
  lemma RememberBeyondRecallLimit(m: MemoryRecord, fact: string)
    requires |Facts(m)| >= RecalledFacts
    ensures RecallContext(WithFact(m, fact)) == RecallContext(m)
  {
    var r := WithFact(m, fact);
    assert Facts(r)[..RecalledFacts] == Facts(m)[..RecalledFacts];
  }

  /** Every stored fact and personality is within the clamp plus its ellipsis. */
  predicate RecordBounded(m: MemoryRecord) {
    && |Personality(m)| <= MemoryClamp + 3
    && forall i :: 0 <= i < |Facts(m)| ==> |Facts(m)[i]| <= MemoryClamp + 3
  }

  /** Which branch of the `/memory` endpoint was taken. */
  datatype MemoryKind = FactKind | PersonalityKind | NoKind

  /** The memory directory, one record per user, behind `remember_fact`, `set_personality`
      and the `/memory` endpoint. */
  class MemoryStore {
    const isForbidden: string -> bool
    var records: map<string, MemoryRecord>

    ghost predicate Bounded()
      reads this
    {
      forall u :: u in records ==> RecordBounded(records[u])
    }

    constructor (isForbidden: string -> bool, records: map<string, MemoryRecord>)
      ensures this.isForbidden == isForbidden && this.records == records
    {
      this.isForbidden := isForbidden;
      this.records := records;
    }

    /** `remember_fact`: forbidden text is refused and nothing is saved; otherwise the
        user's record, loaded or default, gets the clamped fact appended. */
    method RememberFact(user: string, fact: string) returns (ok: bool)
      modifies this`records
      ensures ok <==> !isForbidden(fact)
      ensures records == if ok then old(records)[user := WithFact(LoadMemory(old(records), user), fact)] else old(records)
      ensures old(Bounded()) ==> Bounded()
    {
      if isForbidden(fact) {
        return false;
      }
      var memory := LoadMemory(records, user);
      records := records[user := WithFact(memory, fact)];
      ok := true;
    }

    /** `set_personality`: forbidden text is refused and nothing is saved; otherwise the
        user's personality becomes the clamped text. */
    method SetPersonality(user: string, personality: string) returns (ok: bool)
      modifies this`records
      ensures ok <==> !isForbidden(personality)
      ensures records == if ok then old(records)[user := WithPersonality(LoadMemory(old(records), user), personality)] else old(records)
      ensures old(Bounded()) ==> Bounded()
    {
      if isForbidden(personality) {
        return false;
      }
      var memory := LoadMemory(records, user);
      assert Facts(WithPersonality(memory, personality)) == Facts(memory);
      records := records[user := WithPersonality(memory, personality)];
      ok := true;
    }

    /** The `/memory` endpoint: a non-empty fact wins over a personality; with neither,
        nothing is saved. */
    method Memory(user: string, fact: Option<string>, personality: Option<string>) returns (ok: bool, kind: MemoryKind)
      modifies this`records
      ensures fact.Some? && fact.value != "" ==>
        && kind == FactKind
        && ok == !isForbidden(fact.value)
        && records == if ok then old(records)[user := WithFact(LoadMemory(old(records), user), fact.value)] else old(records)
      ensures !(fact.Some? && fact.value != "") && personality.Some? && personality.value != "" ==>
        && kind == PersonalityKind
        && ok == !isForbidden(personality.value)
        && records == if ok then old(records)[user := WithPersonality(LoadMemory(old(records), user), personality.value)] else old(records)
      ensures kind == NoKind <==> !(fact.Some? && fact.value != "") && !(personality.Some? && personality.value != "")
      ensures kind == NoKind ==> !ok && records == old(records)
      ensures forall u :: u != user && u in old(records) ==> u in records && records[u] == old(records)[u]
      ensures old(Bounded()) ==> Bounded()
    {
      if fact.Some? && fact.value != "" {
        ok := RememberFact(user, fact.value);
        kind := FactKind;
      } else if personality.Some? && personality.value != "" {
        ok := SetPersonality(user, personality.value);
        kind := PersonalityKind;
      } else {
        ok, kind := false, NoKind;
      }
    }

    /** `recall_context` for one user: the user's record, loaded or default, recalled; a
        user without a record recalls nothing. */
    function Recall(user: string): (r: string)
      reads this
      ensures r == RecallContext(LoadMemory(records, user))
      ensures user !in records ==> r == ""
      ensures var text := RecallText(LoadMemory(records, user));
        exists i, j :: OnlySpaceOutside(text, i, j) && r == text[i..j]
      ensures r == [] || (!IsSpace(r[0]) && !IsSpace(r[|r| - 1]))
    {
      var memory := LoadMemory(records, user);
      if user in records then RecallContext(memory)
      else
        RecallDefaultIsEmpty();
        RecallContext(memory)
    }
  }
}
