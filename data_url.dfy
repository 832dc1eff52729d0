/** Data URLs: taking the payload out of the one FileReader produces
    (`result.split(',')[1]`) and building the one shown for a generated image. */
module DataUrl {
  import opened AppTypes

  /** The header of every generated image's URL. */
  const PngBase64Prefix: string := "data:image/png;base64,"

  /** The text of `s` before the first `sep`; all of `s` when it has none. */
  function Before(s: string, sep: char): (r: string)
    ensures |r| <= |s| && r == s[..|r|]
    ensures sep !in r
    ensures |r| < |s| <==> sep in s
    ensures |r| < |s| ==> s[|r|] == sep
  {
    if s == [] || s[0] == sep then [] else [s[0]] + Before(s[1..], sep)
  }

  /** JavaScript's `s.split(sep)` for a one-character separator: the fields
      between separators, from left to right, empty ones included. */
  function Split(s: string, sep: char): (parts: seq<string>)
    ensures |parts| >= 1
    ensures forall i :: 0 <= i < |parts| ==> sep !in parts[i]
  {
    if s == [] then [[]]
    else
      var rest := Split(s[1..], sep);
      if s[0] == sep then [[]] + rest
      else [[s[0]] + rest[0]] + rest[1..]
  }

  /** JavaScript's `parts.join(sep)`. */
  function Join(parts: seq<string>, sep: char): string
    requires |parts| >= 1
  {
    if |parts| == 1 then parts[0] else parts[0] + [sep] + Join(parts[1..], sep)
  }

  /** Joining the fields again gives back the text that was split. */
  lemma {:induction false} JoinSplit(s: string, sep: char)
    ensures Join(Split(s, sep), sep) == s
  {
    if s != [] {
      var rest := Split(s[1..], sep);
      JoinSplit(s[1..], sep);
      if s[0] == sep {
        assert Split(s, sep)[1..] == rest;
      } else {
        var parts := Split(s, sep);
        assert parts[1..] == rest[1..];
        if |rest| == 1 {
          assert parts == [[s[0]] + rest[0]];
        } else {
          calc {
            Join(parts, sep);
            [s[0]] + rest[0] + [sep] + Join(rest[1..], sep);
            [s[0]] + (rest[0] + [sep] + Join(rest[1..], sep));
            [s[0]] + Join(rest, sep);
            [s[0]] + s[1..];
          }
        }
      }
    }
  }

  /** Splitting fields that hold no separator gives those fields back. */
  lemma {:induction false} SplitJoin(parts: seq<string>, sep: char)
    requires |parts| >= 1
    requires forall i :: 0 <= i < |parts| ==> sep !in parts[i]
    ensures Split(Join(parts, sep), sep) == parts
    decreases |parts|, |parts[0]|
  {
    var head := parts[0];
    if head == [] {
      if |parts| > 1 {
        var tail := Join(parts[1..], sep);
        assert Join(parts, sep) == [sep] + tail;
        assert ([sep] + tail)[1..] == tail;
        SplitJoin(parts[1..], sep);
        assert [[]] + parts[1..] == parts;
      }
    } else {
      var shorter := [head[1..]] + parts[1..];
      assert shorter[1..] == parts[1..];
      SplitJoin(shorter, sep);
      var whole := Join(parts, sep);
      assert whole == [head[0]] + Join(shorter, sep);
      assert whole[1..] == Join(shorter, sep);
      assert [head[0]] + head[1..] == head;
    }
  }

  /** The first field of a split is the text before the first separator, and
      when there is a separator the other fields are those of the rest. */
  lemma {:induction false} SplitFields(s: string, sep: char)
    ensures Split(s, sep)[0] == Before(s, sep)
    ensures |Split(s, sep)| >= 2 <==> sep in s
    ensures sep in s ==> Split(s, sep)[1..] == Split(s[|Before(s, sep)| + 1..], sep)
  {
    if s != [] && s[0] != sep {
      SplitFields(s[1..], sep);
      if sep in s {
        assert sep in s[1..];
        assert s[1..][|Before(s[1..], sep)| + 1..] == s[|Before(s, sep)| + 1..];
      }
    }
  }

  /** `url.split(',')[1]`: the payload of a data URL, the field between its first
      and its second comma; None stands for JavaScript's `undefined` when the
      text holds no comma at all. */
  function PayloadOf(url: string): (r: Option<string>)
    ensures r.Some? <==> ',' in url
    ensures r.Some? ==> r.value == Before(url[|Before(url, ',')| + 1..], ',')
  {
    var parts := Split(url, ',');
    SplitFields(url, ',');
    if |parts| >= 2 then
      SplitFields(url[|Before(url, ',')| + 1..], ',');
      Some(parts[1])
    else None
  }

  /** For a header and a payload without commas, as in the base64 data URLs of
      section 3 of RFC 2397, stripping the header gives the payload back. */
  lemma PayloadOfDataUrl(header: string, payload: string)
    requires ',' !in header && ',' !in payload
    ensures PayloadOf(header + "," + payload) == Some(payload)
  {
    var url := header + "," + payload;
    BeforeNoSep(header, ",", ',');
    assert url[|header| + 1..] == payload;
    BeforeNoSep(payload, [], ',');
    assert payload + [] == payload;
  }

  /** Text before the first separator, when the prefix has none. */
  lemma {:induction false} BeforeNoSep(s: string, t: string, sep: char)
    requires sep !in s
    requires t == [] || t[0] == sep
    ensures Before(s + t, sep) == s
  {
    if s != [] {
      assert (s + t)[1..] == s[1..] + t;
      BeforeNoSep(s[1..], t, sep);
    }
  }

  /** The URL shown and downloaded for generated image data:
      `data:image/png;base64,${imageData}`. */
  function ResultUrl(imageData: string): (url: string)
    ensures |url| == |PngBase64Prefix| + |imageData|
    ensures url[..|PngBase64Prefix|] == PngBase64Prefix
    ensures url[|PngBase64Prefix|..] == imageData
  {
    PngBase64Prefix + imageData
  }

  /** A result URL carries its image data back out through the same
      header-stripping step as an uploaded file (when the data holds no comma,
      as base64 text never does), so two different results never share a URL. */
  lemma ResultUrlPayload(imageData: string)
    requires ',' !in imageData
    ensures PayloadOf(ResultUrl(imageData)) == Some(imageData)
  {
    assert PngBase64Prefix == "data:image/png;base64" + ",";
    assert ',' !in "data:image/png;base64";
    PayloadOfDataUrl("data:image/png;base64", imageData);
  }

  /** Different image data gives different result URLs. */
  lemma ResultUrlInjective(a: string, b: string)
    requires ResultUrl(a) == ResultUrl(b)
    ensures a == b
  {
  }
}
