/**
 * The two pure helpers of the mood-analysis hook: the colour shown for an emotion
 * and the dominant emotion of a mood.
 */
module Emotions {

  /**
   * One `[emotion, score]` entry of a mood, and also the `{ emotion, score }` record
   * that the dominant-emotion helper returns. Scores are only ever compared, so they
   * are modelled as reals.
   */
  datatype EmotionScore = EmotionScore(emotion: string, score: real)

  // ---------------------------------------------------------------------------
  // Dominant emotion
  // ---------------------------------------------------------------------------

  /** The reducer `(a, b) => (a[1] > b[1] ? a : b)`: equal scores keep `b`. */
  function Keep(a: EmotionScore, b: EmotionScore): (r: EmotionScore)
    ensures r.score >= a.score && r.score >= b.score
    ensures a.score > b.score ==> r == a
    ensures a.score <= b.score ==> r == b
  {
    if a.score > b.score then a else b
  }

  /**
   * `Object.entries(mood).reduce(Keep)`: a left fold over the entries in property
   * order, seeded with the first entry. The result is an entry of the mood whose
   * score no other entry exceeds.
   */
  function Dominant(entries: seq<EmotionScore>): (r: EmotionScore)
    requires |entries| > 0
    ensures r in entries
    ensures forall j :: 0 <= j < |entries| ==> entries[j].score <= r.score
  {
    if |entries| == 1 then entries[0]
    else Keep(Dominant(entries[..|entries| - 1]), entries[|entries| - 1])
  }

  /** `k` is the last position of `entries` that holds a maximal score. */
  predicate IsLastMaximum(entries: seq<EmotionScore>, k: int) {
    && 0 <= k < |entries|
    && (forall j :: 0 <= j < |entries| ==> entries[j].score <= entries[k].score)
    && (forall j :: k < j < |entries| ==> entries[j].score < entries[k].score)
  }

  /**
   * A reference definition of the tie-breaking rule, computed from the right end:
   * the last position holding the maximal score.
   */
  function LastMaximumIndex(entries: seq<EmotionScore>): (k: nat)
    requires |entries| > 0
    ensures IsLastMaximum(entries, k)
  {
    if |entries| == 1 then 0
    else
      var k' := LastMaximumIndex(entries[1..]) + 1;
      if entries[0].score > entries[k'].score then 0 else k'
  }

  /**
   * Ties go to the later entry: whatever position is the last maximum, the fold
   * returns the entry found there.
   */
  lemma {:induction false} DominantIsLastMaximum(entries: seq<EmotionScore>, k: int)
    requires IsLastMaximum(entries, k)
    ensures Dominant(entries) == entries[k]
  {
    var n := |entries|;
    if n > 1 {
      var init := entries[..n - 1];
      if k == n - 1 {
        var d := Dominant(init);
        assert d.score <= entries[k].score by {
          var i :| 0 <= i < n - 1 && init[i] == d;
          assert entries[i] == d;
        }
      } else {
        assert IsLastMaximum(init, k) by {
          forall j | 0 <= j < n - 1 ensures init[j].score <= init[k].score {
            assert init[j] == entries[j];
          }
        }
        DominantIsLastMaximum(init, k);
      }
    }
  }

  /** The fold and the reference definition agree on every non-empty mood. */
  lemma DominantAgreesWithReference(entries: seq<EmotionScore>)
    requires |entries| > 0
    ensures Dominant(entries) == entries[LastMaximumIndex(entries)]
  {
    DominantIsLastMaximum(entries, LastMaximumIndex(entries));
  }

  // ---------------------------------------------------------------------------
  // Emotion colour
  // ---------------------------------------------------------------------------

  /** The colour used for every emotion the palette does not name. */
  const Grey: string := "#6B7280"

  /** The palette's own entries: the six emotion names and their colours. */
  const Palette: map<string, string> := map[
    "happiness" := "#10B981",
    "sadness" := "#60A5FA",
    "anger" := "#EF4444",
    "fear" := "#8B5CF6",
    "surprise" := "#F59E0B",
    "disgust" := "#6B7280"
  ]

  predicate IsHexDigit(c: char) {
    ('0' <= c <= '9') || ('A' <= c <= 'F') || ('a' <= c <= 'f')
  }

  /** A CSS colour of the form `#RRGGBB`. */
  predicate IsHexColor(c: string) {
    |c| == 7 && c[0] == '#' && forall i :: 1 <= i < 7 ==> IsHexDigit(c[i])
  }

  /**
   * The intended colour of an emotion: the palette's colour for the six listed
   * names and grey for every other string. It is total and always a `#RRGGBB` code.
   */
  function EmotionColor(emotion: string): (c: string)
    ensures emotion == "happiness" ==> c == "#10B981"
    ensures emotion == "sadness" ==> c == "#60A5FA"
    ensures emotion == "anger" ==> c == "#EF4444"
    ensures emotion == "fear" ==> c == "#8B5CF6"
    ensures emotion == "surprise" ==> c == "#F59E0B"
    ensures emotion == "disgust" ==> c == "#6B7280"
    ensures emotion !in Palette ==> c == Grey
    ensures IsHexColor(c)
  {
    if emotion in Palette then Palette[emotion] else Grey
  }

  // The lookup as written, `colors[emotion] || "#6B7280"`, reads a property of an
  // object literal, so names that the literal inherits from Object.prototype are found
  // too. The values below are the ones that lookup can produce.

  datatype JsValue = JsString(s: string) | JsFunction(name: string) | JsObject | Undefined

  /** The methods every object literal inherits from Object.prototype (section 20.1.3 of ECMA-262, where 20.1.3.9 holds the four legacy accessor helpers). */
  const PrototypeMethods: set<string> := {
    "constructor", "hasOwnProperty", "isPrototypeOf", "propertyIsEnumerable",
    "toLocaleString", "toString", "valueOf",
    "__defineGetter__", "__defineSetter__", "__lookupGetter__", "__lookupSetter__"
  }

  /** Names whose lookup on the palette object finds an inherited member; `__proto__` is the accessor of section 20.1.3.8 of ECMA-262. */
  predicate IsInheritedName(key: string) {
    key in PrototypeMethods || key == "__proto__"
  }

  /**
   * `colors[key]` on the palette object literal: an own property, else an inherited
   * method, else the `__proto__` accessor (which yields Object.prototype), else undefined.
   */
  function PaletteLookup(key: string): (v: JsValue)
    ensures key in Palette ==> v == JsString(Palette[key])
    ensures key !in Palette ==> !v.JsString? && (Truthy(v) <==> IsInheritedName(key))
  {
    if key in Palette then JsString(Palette[key])
    else if key in PrototypeMethods then JsFunction(key)
    else if key == "__proto__" then JsObject
    else Undefined
  }

  /** JavaScript truthiness of a lookup result. */
  predicate Truthy(v: JsValue) {
    match v
    case JsString(s) => s != ""
    case JsFunction(_) => true
    case JsObject => true
    case Undefined => false
  }

  /**
   * `getEmotionColor` as written. It returns a string, equal to the intended colour,
   * exactly for the names that are not inherited from Object.prototype.
   */
  function EmotionColorAsWritten(emotion: string): (v: JsValue)
    ensures v.JsString? <==> !IsInheritedName(emotion)
    ensures v.JsString? ==> v.s == EmotionColor(emotion)
  {
    var found := PaletteLookup(emotion);
    if Truthy(found) then found else JsString(Grey)
  }

  /** An input that shows the discrepancy: "toString" yields a function, not grey. */
  lemma AsWrittenToStringIsNotAColor()
    ensures EmotionColorAsWritten("toString") == JsFunction("toString")
    ensures EmotionColor("toString") == Grey
  {
  }
}
