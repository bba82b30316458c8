/**
 * mqtt/helper.go: picking a segment out of a topic by a signed index, and
 * resolving a dotted field path inside a decoded JSON object, with the
 * underscore fallback.
 */
module Helper {
  import opened Wrappers
  import opened Strings

  /** A decoded JSON value, as encoding/json hands it to the exporter. */
  datatype Json =
    | JNull
    | JBool(b: bool)
    | JNumber(n: real)
    | JString(s: string)
    | JArray(items: seq<Json>)
    | JObject(fields: map<string, Json>)

  /** The segments of a topic: strings.Split(topic, "/"). */
  function Segments(topic: string): (s: seq<string>)
    ensures |s| >= 1
  {
    Split(topic, '/')
  }

  /**
   * getTopicPart: segment `idx` of the topic counted from 0 when `idx` is
   * positive, from the end when it is negative (-1 is the last segment), and
   * "" for 0 and for every index out of range. Never fails.
   */
  function TopicPart(topic: string, idx: int): (part: string)
    ensures '/' !in part
  {
    var s := Segments(topic);
    if 0 < idx < |s| then s[idx]
    else if -|s| <= idx < 0 then s[|s| + idx]
    else ""
  }

  /**
   * getTopicPart over a topic given by its segments: for any '/'-free
   * segments, segment `idx` counted from 0 for a positive index, segment
   * len + idx for a negative one, and "" for 0 and every index out of range.
   */
  lemma TopicPartOfSegments(segments: seq<string>, idx: int)
    requires |segments| >= 1
    requires forall i :: 0 <= i < |segments| ==> '/' !in segments[i]
    ensures TopicPart(Join(segments, '/'), idx) ==
      if 0 < idx < |segments| then segments[idx]
      else if -|segments| <= idx < 0 then segments[|segments| + idx]
      else ""
  {
    SplitJoin(segments, '/');
  }

  /**
   * Negative indices mirror positive ones, except that -len reaches the
   * segment before the first '/', which no positive index (and not 0) reaches.
   */
  lemma TopicPartMirror(topic: string, k: int)
    requires 0 < k < |Segments(topic)|
    ensures TopicPart(topic, -k) == TopicPart(topic, |Segments(topic)| - k)
    ensures TopicPart(topic, -|Segments(topic)|) == Segments(topic)[0]
  {
  }

  /** A single-level lookup: `m[key]` with Go's comma-ok. */
  function Lookup(m: map<string, Json>, key: string): Option<Json>
  {
    if key in m then Some(m[key]) else None
  }

  /**
   * tryFind: look up the text before the first '.'; if more path remains,
   * that value must be an object and the walk continues in it; a missing key
   * or a non-object on the way gives not-found. With `replaceDots` every '.'
   * is first turned into '_'.
   */
  function TryFind(m: map<string, Json>, path: string, replaceDots: bool): Option<Json>
    decreases |path|
  {
    var searchPath := if replaceDots then ReplaceAll(path, '.', '_') else path;
    var pp := SplitFirst(searchPath, '.');
    if pp[0] in m && |pp| > 1 then
      match m[pp[0]]
      case JObject(sub) => TryFind(sub, pp[1], replaceDots)
      case _ => None
    else if pp[0] in m then Some(m[pp[0]])
    else None
  }

  /**
   * findInJSON: not-found for an empty path or an empty top-level object;
   * otherwise the literal walk, and only when that fails the underscored one.
   */
  function FindInJson(m: map<string, Json>, path: string): Option<Json>
  {
    if path == "" || |m| == 0 then None
    else
      match TryFind(m, path, false)
      case Some(v) => Some(v)
      case None => TryFind(m, path, true)
  }

  /**
   * Reference walk along a list of keys: every key but the last must name an
   * object; the value at the last key is returned whatever its kind.
   */
  function Walk(m: map<string, Json>, keys: seq<string>): (r: Option<Json>)
    requires |keys| >= 1
    decreases |keys|
  {
    if keys[0] !in m then None
    else if |keys| == 1 then Some(m[keys[0]])
    else
      match m[keys[0]]
      case JObject(sub) => Walk(sub, keys[1..])
      case _ => None
  }

  /** The literal walk of tryFind is `Walk` along the path's '.'-segments. */
  lemma {:induction false} TryFindLiteral(m: map<string, Json>, path: string)
    ensures TryFind(m, path, false) == Walk(m, Split(path, '.'))
    decreases |path|
  {
    var pp := SplitFirst(path, '.');
    SplitFirstSplit(path, '.');
    var keys := Split(path, '.');
    if |pp| == 2 {
      assert keys[1..] == Split(pp[1], '.');
      if pp[0] in m && m[pp[0]].JObject? {
        TryFindLiteral(m[pp[0]].fields, pp[1]);
      }
    }
  }

  /**
   * The underscored retry of tryFind never recurses: after replacing every
   * '.' no separator remains, so it is one top-level lookup of the joined key.
   */
  lemma TryFindUnderscored(m: map<string, Json>, path: string)
    ensures TryFind(m, path, true) == Lookup(m, ReplaceAll(path, '.', '_'))
  {
    ReplaceAllRemoves(path, '.', '_');
  }

  /**
   * findInJSON in full: nothing for an empty path or object; the literal walk
   * when it succeeds (whatever the kind of the value found, objects included);
   * otherwise the lookup of the underscore-joined key.
   */
  lemma FindInJsonSpec(m: map<string, Json>, path: string)
    ensures FindInJson(m, path) ==
      if path == "" || |m| == 0 then None
      else if Walk(m, Split(path, '.')).Some? then Walk(m, Split(path, '.'))
      else Lookup(m, ReplaceAll(path, '.', '_'))
  {
    TryFindLiteral(m, path);
    TryFindUnderscored(m, path);
  }

  /**
   * For a path without '.', both attempts are the same single lookup, so the
   * fallback changes nothing.
   */
  lemma FindInJsonDotless(m: map<string, Json>, path: string)
    requires path != "" && '.' !in path
    ensures FindInJson(m, path) == Lookup(m, path)
  {
    SplitFree(path, '.');
    FindInJsonSpec(m, path);
    assert ReplaceAll(path, '.', '_') == path;
  }
}
