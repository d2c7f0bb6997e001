/** The pure part of `callLLM` in agent.ts: the message thrown when the chat
    completion endpoint answers with a non-ok status. The body text is
    sanitised so that it leaks no API key and is cut to 200 characters. */
module LlmClient {
  import opened Wrappers
  import opened Text

  // ---------------------------------------------------------------------------
  // /sk-[a-zA-Z0-9]+/g  ->  "sk-***"
  // ---------------------------------------------------------------------------

  const KeyPrefix := "sk-"
  const MaskedKey := "sk-***"

  /** Length of the longest prefix of `s` made of ASCII letters and digits. */
  function AlnumRun(s: string): (n: nat)
    ensures n <= |s|
    ensures forall i :: 0 <= i < n ==> IsAlnum(s[i])
    ensures n < |s| ==> !IsAlnum(s[n])
    decreases |s|
  {
    if s != [] && IsAlnum(s[0]) then 1 + AlnumRun(s[1..]) else 0
  }

  /** The regular expression `sk-[a-zA-Z0-9]+` matches at the start of `s`. */
  predicate KeyAtStart(s: string)
  {
    |s| >= 4 && s[..3] == KeyPrefix && IsAlnum(s[3])
  }

  /** A live key starts at index `i` of `s`. */
  predicate LiveKeyAt(s: string, i: nat)
  {
    i + 4 <= |s| && KeyAtStart(s[i..])
  }

  predicate NoLiveKey(s: string)
  {
    forall i: nat :: i < |s| ==> !LiveKeyAt(s, i)
  }

  /** The global replacement: scanning left to right, each match (with its
      letters and digits taken greedily) becomes "sk-***"; every other
      character is kept. */
  function MaskKeys(s: string): string
    decreases |s|
  {
    if KeyAtStart(s) then MaskedKey + MaskKeys(s[3 + AlnumRun(s[3..])..])
    else if s == [] then []
    else [s[0]] + MaskKeys(s[1..])
  }

  /** Masking keeps the first character: a match starts and ends up with "s". */
  lemma MaskKeysHead(s: string)
    requires s != []
    ensures MaskKeys(s) != [] && MaskKeys(s)[0] == s[0]
  {
  }

  /** A live key at index `i >= k` of `a + b`, with `|a| == k`, is a live key
      of `b`. */
  lemma LiveKeyShift(a: string, b: string, i: nat)
    requires |a| <= i && LiveKeyAt(a + b, i)
    ensures LiveKeyAt(b, i - |a|)
  {
    assert (a + b)[i..] == b[i - |a|..];
  }

  /** "sk-***" in front of a text without a live key creates none. */
  lemma MaskedKeyThen(r: string)
    requires NoLiveKey(r)
    ensures NoLiveKey(MaskedKey + r)
  {
    var t := MaskedKey + r;
    forall i: nat | i < |t| ensures !LiveKeyAt(t, i) {
      if i >= 6 {
        if LiveKeyAt(t, i) {
          LiveKeyShift(MaskedKey, r, i);
        }
      } else if i + 4 <= |t| {
        assert t[i..][0] == t[i] && t[i..][3] == t[i + 3];
        assert t[..6] == MaskedKey;
      }
    }
  }

  /** A kept first character and the masked rest start with a key only when
      the input did: masking leaves "k", "-" and the following character in
      place. */
  lemma KeyThroughKeptChar(s: string)
    requires s != []
    ensures KeyAtStart([s[0]] + MaskKeys(s[1..])) ==> KeyAtStart(s)
  {
    var t := s[1..];
    var r := [s[0]] + MaskKeys(t);
    if KeyAtStart(r) {
      MaskKeysHead(t);
      assert r[..3] == KeyPrefix;
      assert r[1] == MaskKeys(t)[0] == t[0] == 'k';
      assert !KeyAtStart(t);
      assert MaskKeys(t) == [t[0]] + MaskKeys(t[1..]);
      MaskKeysHead(t[1..]);
      assert r[2] == MaskKeys(t)[1] == MaskKeys(t[1..])[0] == t[1..][0];
      assert t[1] == '-' && !KeyAtStart(t[1..]);
      assert MaskKeys(t[1..]) == [t[1]] + MaskKeys(t[2..]);
      MaskKeysHead(t[2..]);
      assert r[3] == MaskKeys(t[1..])[1] == MaskKeys(t[2..])[0] == t[2..][0];
      assert s[..4] == r[..4];
    }
  }

  /** A kept first character creates no live key when the input did not
      start with one. */
  lemma KeptCharThen(s: string)
    requires s != [] && !KeyAtStart(s)
    requires NoLiveKey(MaskKeys(s[1..]))
    ensures NoLiveKey([s[0]] + MaskKeys(s[1..]))
  {
    var t := s[1..];
    var r := [s[0]] + MaskKeys(t);
    forall i: nat | i < |r| ensures !LiveKeyAt(r, i) {
      if i >= 1 {
        if LiveKeyAt(r, i) {
          LiveKeyShift([s[0]], MaskKeys(t), i);
        }
      } else {
        KeyThroughKeptChar(s);
        assert r[0..] == r;
      }
    }
  }

  /** After masking no live key is left. */
  lemma {:induction false} MaskKeysLeavesNoKey(s: string)
    ensures NoLiveKey(MaskKeys(s))
    decreases |s|
  {
    if KeyAtStart(s) {
      MaskKeysLeavesNoKey(s[3 + AlnumRun(s[3..])..]);
      MaskedKeyThen(MaskKeys(s[3 + AlnumRun(s[3..])..]));
    } else if s != [] {
      MaskKeysLeavesNoKey(s[1..]);
      KeptCharThen(s);
    }
  }

  /** A text without a live key is left as it is. */
  lemma {:induction false} MaskKeysKeepsClean(s: string)
    requires NoLiveKey(s)
    ensures MaskKeys(s) == s
    decreases |s|
  {
    if s != [] {
      assert !LiveKeyAt(s, 0);
      assert s[0..] == s;
      forall i: nat | i < |s[1..]| ensures !LiveKeyAt(s[1..], i) {
        assert s[1..][i..] == s[i + 1..];
        assert !LiveKeyAt(s, i + 1);
      }
      MaskKeysKeepsClean(s[1..]);
    }
  }

  /** Masking changes a text exactly when it holds a live key, and masking
      twice is masking once. */
  lemma MaskKeysIff(s: string)
    ensures MaskKeys(s) == s <==> NoLiveKey(s)
    ensures MaskKeys(MaskKeys(s)) == MaskKeys(s)
  {
    MaskKeysLeavesNoKey(s);
    MaskKeysKeepsClean(MaskKeys(s));
    if NoLiveKey(s) {
      MaskKeysKeepsClean(s);
    }
  }

  // ---------------------------------------------------------------------------
  // /"api_key"\s*:\s*"[^"]*"/g  ->  "api_key": "***"
  // ---------------------------------------------------------------------------

  const FieldName := "\"api_key\""
  const MaskedField := "\"api_key\": \"***\""

  /** Length of the longest prefix of `s` made of `\s` characters. */
  function SpaceRun(s: string): (n: nat)
    ensures n <= |s|
    ensures forall i :: 0 <= i < n ==> IsSpace(s[i])
    ensures n < |s| ==> !IsSpace(s[n])
    decreases |s|
  {
    if s != [] && IsSpace(s[0]) then 1 + SpaceRun(s[1..]) else 0
  }

  /** Length of the longest prefix of `s` without a double quote. */
  function QuoteFreeRun(s: string): (n: nat)
    ensures n <= |s|
    ensures forall i :: 0 <= i < n ==> s[i] != '"'
    ensures n < |s| ==> s[n] == '"'
    decreases |s|
  {
    if s != [] && s[0] != '"' then 1 + QuoteFreeRun(s[1..]) else 0
  }

  /** The length of the match of `"api_key"\s*:\s*"[^"]*"` at the start of
      `s`, if there is one. Every run is followed by a character it cannot
      take, so taking each run greedily, as below, finds the only match. */
  function FieldAt(s: string): (m: Option<nat>)
    ensures m.Some? ==> |FieldName| < m.value <= |s| && FieldName <= s && s[m.value - 1] == '"'
  {
    if !(FieldName <= s) then None
    else
      var a := |FieldName| + SpaceRun(s[|FieldName|..]);
      if a < |s| && s[a] == ':' then
        var b := a + 1 + SpaceRun(s[a + 1..]);
        if b < |s| && s[b] == '"' then
          var c := b + 1 + QuoteFreeRun(s[b + 1..]);
          if c < |s| then Some(c + 1) else None
        else None
      else None
  }

  /** The global replacement of every `api_key` field with a masked one. */
  function MaskFields(s: string): string
    decreases |s|
  {
    match FieldAt(s)
    case Some(n) => MaskedField + MaskFields(s[n..])
    case None => if s == [] then [] else [s[0]] + MaskFields(s[1..])
  }

  /** Masking fields keeps the first character: a match starts, and its
      replacement starts, with a double quote. */
  lemma MaskFieldsHead(s: string)
    requires s != []
    ensures MaskFields(s) != [] && MaskFields(s)[0] == s[0]
  {
  }

  /** A text with no "s" in front of a text without a live key creates none. */
  lemma NoKeyStartThen(a: string, r: string)
    requires 's' !in a && NoLiveKey(r)
    ensures NoLiveKey(a + r)
  {
    var t := a + r;
    forall i: nat | i < |t| ensures !LiveKeyAt(t, i) {
      if i >= |a| {
        if LiveKeyAt(t, i) {
          LiveKeyShift(a, r, i);
        }
      } else {
        assert t[i..][0] == a[i];
      }
    }
  }

  /** A suffix of a text without a live key has none. */
  lemma NoLiveKeyDrop(s: string, k: nat)
    requires k <= |s| && NoLiveKey(s)
    ensures NoLiveKey(s[k..])
  {
    forall i: nat | i < |s[k..]| ensures !LiveKeyAt(s[k..], i) {
      assert s[k..][i..] == s[k + i..];
      assert !LiveKeyAt(s, k + i);
    }
  }

  /** A prefix of a text without a live key has none. */
  lemma NoLiveKeyTake(s: string, k: nat)
    requires k <= |s| && NoLiveKey(s)
    ensures NoLiveKey(s[..k])
  {
    forall i: nat | i < k ensures !LiveKeyAt(s[..k], i) {
      if i + 4 <= k {
        assert !LiveKeyAt(s, i);
        assert s[..k][i..][..3] == s[i..][..3];
        assert s[..k][i..][3] == s[i..][3];
      }
    }
  }

  /** Text that does not start with a double quote keeps its first
      character. */
  lemma MaskFieldsPlainHead(s: string)
    requires s != [] && s[0] != '"'
    ensures MaskFields(s) == [s[0]] + MaskFields(s[1..])
  {
    assert !(FieldName <= s) by {
      assert FieldName[0] == '"';
    }
  }

  /** As for key masking: a kept first character and the rest with its fields
      masked start with a key only when the input did. */
  lemma KeyThroughKeptField(s: string)
    requires s != []
    ensures KeyAtStart([s[0]] + MaskFields(s[1..])) ==> KeyAtStart(s)
  {
    var t := s[1..];
    var r := [s[0]] + MaskFields(t);
    if KeyAtStart(r) {
      MaskFieldsHead(t);
      assert r[..3] == KeyPrefix;
      assert r[1] == MaskFields(t)[0] == t[0] == 'k';
      MaskFieldsPlainHead(t);
      MaskFieldsHead(t[1..]);
      assert r[2] == MaskFields(t)[1] == MaskFields(t[1..])[0] == t[1..][0];
      MaskFieldsPlainHead(t[1..]);
      assert t[1..][1..] == t[2..];
      MaskFieldsHead(t[2..]);
      assert r[3] == MaskFields(t[1..])[1] == MaskFields(t[2..])[0] == t[2..][0];
      assert s[..4] == r[..4];
    }
  }

  /** Masking fields never brings a key back. */
  lemma {:induction false} MaskFieldsKeepsNoKey(s: string)
    requires NoLiveKey(s)
    ensures NoLiveKey(MaskFields(s))
    decreases |s|
  {
    match FieldAt(s)
    case Some(n) =>
      NoLiveKeyDrop(s, n);
      MaskFieldsKeepsNoKey(s[n..]);
      NoKeyStartThen(MaskedField, MaskFields(s[n..]));
    case None =>
      if s != [] {
        NoLiveKeyDrop(s, 1);
        MaskFieldsKeepsNoKey(s[1..]);
        var r := [s[0]] + MaskFields(s[1..]);
        forall i: nat | i < |r| ensures !LiveKeyAt(r, i) {
          if i >= 1 {
            if LiveKeyAt(r, i) {
              LiveKeyShift([s[0]], MaskFields(s[1..]), i);
            }
          } else {
            KeyThroughKeptField(s);
            assert r[0..] == r && s[0..] == s;
            assert !LiveKeyAt(s, 0);
          }
        }
      }
  }

  /** A text in which no field matches is left as it is. */
  lemma {:induction false} MaskFieldsKeepsPlain(s: string)
    requires forall i :: 0 <= i <= |s| ==> FieldAt(s[i..]).None?
    ensures MaskFields(s) == s
    decreases |s|
  {
    assert s[0..] == s;
    if s != [] {
      forall i | 0 <= i <= |s[1..]| ensures FieldAt(s[1..][i..]).None? {
        assert s[1..][i..] == s[i + 1..];
      }
      MaskFieldsKeepsPlain(s[1..]);
    }
  }

  // ---------------------------------------------------------------------------
  // What the replacements put where
  // ---------------------------------------------------------------------------

  /** One step of key masking where no key starts. */
  lemma MaskKeysKeep(s: string)
    requires s != [] && !KeyAtStart(s)
    ensures MaskKeys(s) == [s[0]] + MaskKeys(s[1..])
  {
  }

  /** One step of key masking where a key starts. */
  lemma MaskKeysAtKey(s: string)
    requires KeyAtStart(s)
    ensures MaskKeys(s) == MaskedKey + MaskKeys(s[3 + AlnumRun(s[3..])..])
  {
  }

  /** Text before the first key is copied unchanged. */
  lemma {:induction false} MaskKeysPrefix(s: string, i: nat)
    requires i <= |s|
    requires forall j: nat :: j < i ==> !LiveKeyAt(s, j)
    ensures MaskKeys(s) == s[..i] + MaskKeys(s[i..])
    decreases i
  {
    if i > 0 {
      assert !KeyAtStart(s) by {
        assert s[0..] == s;
        assert !LiveKeyAt(s, 0);
      }
      MaskKeysKeep(s);
      forall j: nat | j < i - 1 ensures !LiveKeyAt(s[1..], j) {
        assert s[1..][j..] == s[j + 1..];
        assert !LiveKeyAt(s, j + 1);
      }
      MaskKeysPrefix(s[1..], i - 1);
      assert s[1..][i - 1..] == s[i..];
      ConsSplit(s, i, MaskKeys(s[i..]));
    }
  }

  /** Where the key found at `i` ends: after "sk-" and the longest run of
      letters and digits that follows it. */
  function KeyEnd(s: string, i: nat): (e: nat)
    requires LiveKeyAt(s, i)
    ensures i + 3 <= e <= |s|
  {
    i + 3 + AlnumRun(s[i + 3..])
  }

  /** The key at `i` is "sk-" and a non-empty run of letters and digits
      ending at `KeyEnd(s, i)`, where the next character, if any, is neither. */
  lemma KeyRun(s: string, i: nat)
    requires LiveKeyAt(s, i)
    ensures i + 4 <= KeyEnd(s, i) && s[i..i + 3] == KeyPrefix
    ensures forall k :: i + 3 <= k < KeyEnd(s, i) ==> IsAlnum(s[k])
    ensures KeyEnd(s, i) < |s| ==> !IsAlnum(s[KeyEnd(s, i)])
  {
    var t := s[i..];
    var u := s[i + 3..];
    var run := AlnumRun(u);
    assert t[..3] == s[i..i + 3];
    assert u[0] == t[3];
    forall k | i + 3 <= k < i + 3 + run ensures IsAlnum(s[k]) {
      assert u[k - (i + 3)] == s[k];
    }
    if i + 3 + run < |s| {
      assert u[run] == s[i + 3 + run];
    }
  }

  /** The first key, at `i`, is replaced as a whole: "sk-" and its longest
      run of letters and digits become "sk-***", the text before it is
      kept, and masking goes on right after the run. */
  lemma MaskKeysFirst(s: string, i: nat)
    requires LiveKeyAt(s, i)
    requires forall j: nat :: j < i ==> !LiveKeyAt(s, j)
    ensures MaskKeys(s) == s[..i] + MaskedKey + MaskKeys(s[KeyEnd(s, i)..])
  {
    var x := MaskKeys(s[KeyEnd(s, i)..]);
    calc {
      MaskKeys(s);
      { MaskKeysPrefix(s, i); }
      s[..i] + MaskKeys(s[i..]);
      { MaskKeysFrom(s, i); }
      s[..i] + (MaskedKey + x);
      s[..i] + MaskedKey + x;
    }
  }

  /** Masking from a live key at `i` replaces it and resumes after its run. */
  lemma MaskKeysFrom(s: string, i: nat)
    requires LiveKeyAt(s, i)
    ensures MaskKeys(s[i..]) == MaskedKey + MaskKeys(s[KeyEnd(s, i)..])
  {
    var t := s[i..];
    var r := AlnumRun(s[i + 3..]);
    assert t[3..] == s[i + 3..];
    assert t[3 + r..] == s[i + 3 + r..];
    calc {
      MaskKeys(t);
      { MaskKeysAtKey(t); }
      MaskedKey + MaskKeys(t[3 + AlnumRun(t[3..])..]);
      MaskedKey + MaskKeys(s[i + 3 + r..]);
    }
  }

  /** One step of field masking where no field starts. */
  lemma MaskFieldsKeep(s: string)
    requires s != [] && FieldAt(s).None?
    ensures MaskFields(s) == [s[0]] + MaskFields(s[1..])
  {
  }

  /** No field starts before `i` in `s`, so none starts before `i - 1` in its tail. */
  lemma NoFieldShift(s: string, i: nat)
    requires 0 < i <= |s|
    requires forall j :: 0 <= j < i ==> FieldAt(s[j..]).None?
    ensures FieldAt(s).None?
    ensures forall j :: 0 <= j < i - 1 ==> FieldAt(s[1..][j..]).None?
  {
    assert s[0..] == s;
    forall j | 0 <= j < i - 1 ensures FieldAt(s[1..][j..]).None? {
      assert s[1..][j..] == s[j + 1..];
    }
  }

  /** Splitting after a first character commutes with splitting at `i`. */
  lemma ConsSplit(s: string, i: nat, r: string)
    requires 0 < i <= |s|
    ensures [s[0]] + (s[1..][..i - 1] + r) == s[..i] + r
  {
    assert s[1..][..i - 1] == s[1..i];
    assert s[..i] == [s[0]] + s[1..i];
  }

  /** Text before the first field is copied unchanged. */
  lemma {:induction false} MaskFieldsPrefix(s: string, i: nat)
    requires i <= |s|
    requires forall j :: 0 <= j < i ==> FieldAt(s[j..]).None?
    ensures MaskFields(s) == s[..i] + MaskFields(s[i..])
    decreases i
  {
    if i > 0 {
      NoFieldShift(s, i);
      MaskFieldsKeep(s);
      MaskFieldsPrefix(s[1..], i - 1);
      assert s[1..][i - 1..] == s[i..];
      ConsSplit(s, i, MaskFields(s[i..]));
    }
  }

  /** The first field, at `i` and `n` characters long, is replaced as a
      whole by `"api_key": "***"`; the text before it is kept and masking
      goes on right after its closing quote. */
  lemma MaskFieldsFirst(s: string, i: nat, n: nat)
    requires i <= |s| && FieldAt(s[i..]) == Some(n)
    requires forall j :: 0 <= j < i ==> FieldAt(s[j..]).None?
    ensures i + n <= |s|
    ensures MaskFields(s) == s[..i] + MaskedField + MaskFields(s[i + n..])
  {
    var t := s[i..];
    assert t[n..] == s[i + n..];
    calc {
      MaskFields(s);
      { MaskFieldsPrefix(s, i); }
      s[..i] + MaskFields(t);
      s[..i] + (MaskedField + MaskFields(t[n..]));
      s[..i] + MaskedField + MaskFields(s[i + n..]);
    }
  }

  /** `s` opens with `"api_key"`, white space, a colon at `a`, white space,
      and a value quoted from `b` to `n - 1`: the text `"api_key"\s*:\s*"[^"]*"`
      matches, `n` characters long. */
  predicate FieldShape(s: string, a: nat, b: nat, n: nat)
  {
    |FieldName| <= a < b && b + 1 < n <= |s| && s[..|FieldName|] == FieldName
    && (forall k :: |FieldName| <= k < a ==> IsSpace(s[k])) && s[a] == ':'
    && (forall k :: a + 1 <= k < b ==> IsSpace(s[k])) && s[b] == '"'
    && (forall k :: b + 1 <= k < n - 1 ==> s[k] != '"') && s[n - 1] == '"'
  }

  lemma {:induction false} SpaceRunIs(s: string, k: nat)
    requires k <= |s| && (forall i :: 0 <= i < k ==> IsSpace(s[i])) && (k < |s| ==> !IsSpace(s[k]))
    ensures SpaceRun(s) == k
    decreases k
  {
    if k > 0 {
      forall i | 0 <= i < k - 1 ensures IsSpace(s[1..][i]) {
        assert s[1..][i] == s[i + 1];
      }
      if k < |s| {
        assert s[1..][k - 1] == s[k];
      }
      SpaceRunIs(s[1..], k - 1);
    }
  }

  lemma {:induction false} QuoteFreeRunIs(s: string, k: nat)
    requires k < |s| && (forall i :: 0 <= i < k ==> s[i] != '"') && s[k] == '"'
    ensures QuoteFreeRun(s) == k
    decreases k
  {
    if k > 0 {
      forall i | 0 <= i < k - 1 ensures s[1..][i] != '"' {
        assert s[1..][i] == s[i + 1];
      }
      assert s[1..][k - 1] == s[k];
      QuoteFreeRunIs(s[1..], k - 1);
    }
  }

  /** A match found by `FieldAt` has the shape of the field pattern. */
  lemma FieldAtShape(s: string, n: nat)
    requires FieldAt(s) == Some(n)
    ensures exists a: nat, b: nat :: FieldShape(s, a, b, n)
  {
    var f := |FieldName|;
    var a := f + SpaceRun(s[f..]);
    var b := a + 1 + SpaceRun(s[a + 1..]);
    forall k | f <= k < a ensures IsSpace(s[k]) {
      assert s[f..][k - f] == s[k];
    }
    forall k | a + 1 <= k < b ensures IsSpace(s[k]) {
      assert s[a + 1..][k - (a + 1)] == s[k];
    }
    var c := b + 1 + QuoteFreeRun(s[b + 1..]);
    forall k | b + 1 <= k < n - 1 ensures s[k] != '"' {
      assert s[b + 1..][k - (b + 1)] == s[k];
    }
    assert s[b + 1..][c - (b + 1)] == s[c];
    assert FieldShape(s, a, b, n);
  }

  /** The white space after the field name is the run up to the colon at `a`. */
  lemma ShapeFirstRun(s: string, a: nat, b: nat, n: nat)
    requires FieldShape(s, a, b, n)
    ensures SpaceRun(s[|FieldName|..]) == a - |FieldName|
  {
    var f := |FieldName|;
    var w := s[f..];
    forall i | 0 <= i < a - f ensures IsSpace(w[i]) {
      assert w[i] == s[f + i];
    }
    assert !IsSpace(':');
    assert w[a - f] == s[a];
    SpaceRunIs(w, a - f);
  }

  /** The white space after the colon is the run up to the quote at `b`. */
  lemma ShapeSecondRun(s: string, a: nat, b: nat, n: nat)
    requires FieldShape(s, a, b, n)
    ensures SpaceRun(s[a + 1..]) == b - (a + 1)
  {
    var u := s[a + 1..];
    forall i | 0 <= i < b - (a + 1) ensures IsSpace(u[i]) {
      assert u[i] == s[a + 1 + i];
    }
    assert !IsSpace('"');
    assert u[b - (a + 1)] == s[b];
    SpaceRunIs(u, b - (a + 1));
  }

  /** The quoted value runs up to the closing quote at `n - 1`. */
  lemma ShapeValueRun(s: string, a: nat, b: nat, n: nat)
    requires FieldShape(s, a, b, n)
    ensures QuoteFreeRun(s[b + 1..]) == n - 1 - (b + 1)
  {
    var v := s[b + 1..];
    forall i | 0 <= i < n - 1 - (b + 1) ensures v[i] != '"' {
      assert v[i] == s[b + 1 + i];
    }
    assert v[n - 1 - (b + 1)] == s[n - 1];
    QuoteFreeRunIs(v, n - 1 - (b + 1));
  }

  /** Every text with the shape of the field pattern is found by `FieldAt`,
      with its length. */
  lemma ShapeFieldAt(s: string, a: nat, b: nat, n: nat)
    requires FieldShape(s, a, b, n)
    ensures FieldAt(s) == Some(n)
  {
    assert FieldName <= s;
    ShapeFirstRun(s, a, b, n);
    ShapeSecondRun(s, a, b, n);
    ShapeValueRun(s, a, b, n);
    FieldAtFrom(s, a, b, n - 1);
  }

  /** `FieldAt` read off its three runs. */
  lemma FieldAtFrom(s: string, a: nat, b: nat, c: nat)
    requires FieldName <= s && a == |FieldName| + SpaceRun(s[|FieldName|..])
    requires a < |s| && s[a] == ':' && b == a + 1 + SpaceRun(s[a + 1..])
    requires b < |s| && s[b] == '"' && c == b + 1 + QuoteFreeRun(s[b + 1..]) && c < |s|
    ensures FieldAt(s) == Some(c + 1)
  {
  }

  /** `FieldAt` finds exactly the matches of the field pattern, and each
      with its one length. */
  lemma FieldAtIff(s: string, n: nat)
    ensures FieldAt(s) == Some(n) <==> exists a: nat, b: nat :: FieldShape(s, a, b, n)
  {
    if FieldAt(s) == Some(n) {
      FieldAtShape(s, n);
    }
    if exists a: nat, b: nat :: FieldShape(s, a, b, n) {
      var a: nat, b: nat :| FieldShape(s, a, b, n);
      ShapeFieldAt(s, a, b, n);
    }
  }

  // ---------------------------------------------------------------------------
  // The thrown message
  // ---------------------------------------------------------------------------

  const SanitizedLength := 200

  /** The body text of a failed response, made safe to show. */
  function Sanitize(body: string): string
  {
    Take(MaskFields(MaskKeys(body)), SanitizedLength)
  }

  /** `API error (<status>): <sanitised body>`. */
  function ApiErrorMessage(status: nat, body: string): string
  {
    "API error (" + NatToString(status) + "): " + Sanitize(body)
  }

  /** The sanitised text has at most 200 characters and holds no live key. */
  lemma SanitizeIsSafe(body: string)
    ensures |Sanitize(body)| <= 200
    ensures NoLiveKey(Sanitize(body))
  {
    var m := MaskFields(MaskKeys(body));
    MaskKeysLeavesNoKey(body);
    MaskFieldsKeepsNoKey(MaskKeys(body));
    if |m| > SanitizedLength {
      NoLiveKeyTake(m, SanitizedLength);
    }
  }

  /** A short body with no key and no `api_key` field is shown unchanged. */
  lemma SanitizeKeepsPlain(body: string)
    requires |body| <= 200 && NoLiveKey(body)
    requires forall i :: 0 <= i <= |body| ==> FieldAt(body[i..]).None?
    ensures Sanitize(body) == body
  {
    MaskKeysKeepsClean(body);
    MaskFieldsKeepsPlain(body);
  }

  /** The message opens with the status and ends with the sanitised body. */
  lemma ApiErrorMessageShape(status: nat, body: string)
    ensures var m := ApiErrorMessage(status, body);
            "API error (" + NatToString(status) + "): " <= m
            && EndsWith(m, Sanitize(body))
            && |m| <= |"API error (" + NatToString(status) + "): "| + 200
  {
    SanitizeIsSafe(body);
  }
}
