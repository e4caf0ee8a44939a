/** `Base64ImageField.to_internal_value` (backend/recipes/serializers.py): a data URL
    `data:image/<ext>;base64,<payload>` is cut at `;base64,` and becomes a file named
    `temp.<ext>`; anything else goes to the image field unchanged. The payload is kept
    encoded: decoding and image validation belong to library code. */
module ImageField {
  import opened Wrappers
  import opened Text

  /** What the client sent: a string, or anything else (an uploaded file, a number...). */
  datatype Payload = Text(s: string) | NotText

  /** What is handed on to the image field: the input untouched, or a named file holding
      the still-encoded payload. */
  datatype ImageInput = PassThrough(data: Payload) | Decoded(name: string, encoded: string)

  const DataPrefix: string := "data:image"
  const Marker: string := ";base64,"

  /** `format_.split('/')[-1]`: the text after the last '/' of the header. */
  function Extension(header: string): (ext: string)
    ensures !Contains(ext, "/")
    ensures EndsWith(header, ext)
    ensures ext == header || EndsWith(header, "/" + ext)
  {
    var parts := Split(header, "/");
    JoinEndsWithLast(parts, "/");
    LastAfterSeparator(parts, "/");
    Last(parts)
  }

  /** The last part is either the whole joined text or preceded by a separator. */
  lemma LastAfterSeparator(parts: seq<string>, sep: string)
    requires |parts| >= 1
    ensures Last(parts) == Join(parts, sep) || EndsWith(Join(parts, sep), sep + Last(parts))
  {
    if |parts| >= 2 {
      JoinSplitsAtLast(parts, sep);
      var whole := Join(parts, sep);
      var front := Join(parts[..|parts| - 1], sep);
      assert whole == front + (sep + Last(parts));
      assert whole[|whole| - |sep + Last(parts)|..] == sep + Last(parts);
    }
  }

  /** Joining several parts puts the separator right before the last one. */
  lemma {:induction false} JoinSplitsAtLast(parts: seq<string>, sep: string)
    requires |parts| >= 2
    ensures Join(parts, sep) == Join(parts[..|parts| - 1], sep) + sep + Last(parts)
    decreases |parts|
  {
    var front := parts[..|parts| - 1];
    if |parts| == 2 {
      assert parts[1..] == [parts[1]];
      assert front == [parts[0]];
    } else {
      JoinSplitsAtLast(parts[1..], sep);
      assert parts[1..][..|parts| - 2] == front[1..];
      assert front[0] == parts[0];
      assert Last(parts[1..]) == Last(parts);
    }
  }

  lemma {:induction false} JoinEndsWithLast(parts: seq<string>, sep: string)
    requires |parts| >= 1
    ensures EndsWith(Join(parts, sep), Last(parts))
  {
    if |parts| > 1 {
      JoinEndsWithLast(parts[1..], sep);
      var tail := Join(parts[1..], sep);
      var whole := Join(parts, sep);
      assert whole == parts[0] + sep + tail;
      assert whole[|whole| - |Last(parts)|..] == tail[|tail| - |Last(parts)|..];
    }
  }

  function ToInternalValue(data: Payload): (r: Result<ImageInput>)
    ensures !(data.Text? && StartsWith(data.s, DataPrefix)) ==> r == Success(PassThrough(data))
    ensures data.Text? && StartsWith(data.s, DataPrefix) ==>
              (r.Failure? <==> |Split(data.s, Marker)| != 2)
    ensures r.Failure? ==> r.error == UnpackMismatch
    ensures r.Success? && r.value.Decoded? ==>
              exists header: string | StartsWith(data.s, header) ::
                && data.s == header + Marker + r.value.encoded
                && !Contains(header, Marker) && !Contains(r.value.encoded, Marker)
                && r.value.name == "temp." + Extension(header)
  {
    match data
    case NotText => Success(PassThrough(data))
    case Text(s) =>
      if !StartsWith(s, DataPrefix) then Success(PassThrough(data))
      else
        var parts := Split(s, Marker);
        if |parts| != 2 then Failure(UnpackMismatch)
        else
          var header, encoded := parts[0], parts[1];
          assert parts[1..] == [encoded];
          assert s == header + Marker + encoded;
          assert !Contains(header, Marker) && !Contains(encoded, Marker);
          assert s[..|header|] == header;
          Success(Decoded("temp." + Extension(header), encoded))
  }

  /** `;base64,` cannot start inside a text that does not contain it and run into a
      following `;base64,`: the marker has no proper prefix that is also a suffix. */
  lemma MarkerFirstAfter(header: string, rest: string)
    requires !Contains(header, Marker)
    ensures forall j | 0 <= j < |header| :: !OccursAt(header + Marker + rest, Marker, j)
    ensures OccursAt(header + Marker + rest, Marker, |header|)
  {
    var s := header + Marker + rest;
    assert s[|header|..|header| + |Marker|] == Marker;
    forall j | 0 <= j < |header|
      ensures !OccursAt(s, Marker, j)
    {
      if j + |Marker| <= |header| {
        assert s[j..j + |Marker|] == header[j..j + |Marker|];
        assert !OccursAt(header, Marker, j);
      } else {
        assert s[j + 7] == Marker[j + 7 - |header|];
        assert Marker[j + 7 - |header|] != ',';
        assert s[j..j + |Marker|][7] != Marker[7];
      }
    }
  }

  /** A text without the first character of `sep` does not contain `sep`. */
  lemma NoFirstChar(s: string, sep: string)
    requires |sep| > 0
    requires forall i | 0 <= i < |s| :: s[i] != sep[0]
    ensures !Contains(s, sep)
  {
    forall j | 0 <= j <= |s|
      ensures !OccursAt(s, sep, j)
    {
      if j + |sep| <= |s| {
        assert s[j..j + |sep|][0] == s[j];
      }
    }
  }

  /** Splitting a text that does not contain the separator gives the text alone. */
  lemma SplitWithoutSeparator(s: string, sep: string)
    requires |sep| > 0 && !Contains(s, sep)
    ensures Split(s, sep) == [s]
  {
    assert forall j | 0 <= j <= |s| :: !OccursAt(s, sep, j);
  }

  /** Splitting at the first marker: the text before it, then the pieces of the rest. */
  lemma SplitAtFirst(header: string, rest: string)
    requires !Contains(header, Marker)
    ensures Split(header + Marker + rest, Marker) == [header] + Split(rest, Marker)
  {
    var s := header + Marker + rest;
    MarkerFirstAfter(header, rest);
    assert IndexFrom(s, Marker, 0) == Some(|header|);
    assert s[..|header|] == header;
    assert s[|header| + |Marker|..] == rest;
  }

  /** Round trip: a data URL assembled from a header and a payload, neither containing
      `;base64,`, is taken apart into exactly that payload and the header's extension. */
  lemma DataUrlRoundTrip(header: string, encoded: string)
    requires StartsWith(header, DataPrefix)
    requires !Contains(header, Marker) && !Contains(encoded, Marker)
    ensures ToInternalValue(Text(header + Marker + encoded))
         == Success(Decoded("temp." + Extension(header), encoded))
  {
    var s := header + Marker + encoded;
    SplitAtFirst(header, encoded);
    SplitWithoutSeparator(encoded, Marker);
    assert Split(s, Marker) == [header, encoded];
    assert s[..|DataPrefix|] == header[..|DataPrefix|];
  }

  /** A data URL with a second marker is refused rather than cut at either. */
  lemma TwoMarkersRefused(header: string, a: string, b: string)
    requires StartsWith(header, DataPrefix)
    requires !Contains(header, Marker) && !Contains(a, Marker) && !Contains(b, Marker)
    ensures ToInternalValue(Text(header + Marker + a + Marker + b)) == Failure(UnpackMismatch)
  {
    var s := header + Marker + a + Marker + b;
    assert s == header + Marker + (a + Marker + b);
    SplitAtFirst(header, a + Marker + b);
    SplitAtFirst(a, b);
    SplitWithoutSeparator(b, Marker);
    assert Split(s, Marker) == [header, a, b];
    assert s[..|DataPrefix|] == header[..|DataPrefix|];
  }

  /** The concrete case: a PNG data URL with two payloads. */
  lemma TwoPayloadsRefused()
    ensures ToInternalValue(Text("data:image/png;base64,a;base64,b")) == Failure(UnpackMismatch)
  {
    NoFirstChar("data:image/png", Marker);
    NoFirstChar("a", Marker);
    NoFirstChar("b", Marker);
    assert "data:image/png;base64,a;base64,b" == "data:image/png" + Marker + "a" + Marker + "b";
    assert "data:image/png"[..|DataPrefix|] == DataPrefix;
    TwoMarkersRefused("data:image/png", "a", "b");
  }

  /** The extension of the usual header: `data:image/png` gives `png`. */
  lemma PngExtension()
    ensures Extension("data:image/png") == "png"
  {
    var h, e := "data:image", "png";
    var s := h + "/" + e;
    assert s == "data:image/png";
    assert forall i | 0 <= i < |h| :: h[i] != '/';
    assert forall j | 0 <= j < |h| :: !OccursAt(s, "/", j) by {
      forall j | 0 <= j < |h|
        ensures !OccursAt(s, "/", j)
      {
        assert s[j..j + 1][0] == h[j];
      }
    }
    assert OccursAt(s, "/", |h|) by {
      assert s[|h|..|h| + 1] == "/";
    }
    assert IndexFrom(s, "/", 0) == Some(|h|);
    assert s[..|h|] == h;
    assert s[|h| + 1..] == e;
    NoFirstChar(e, "/");
    SplitWithoutSeparator(e, "/");
    assert Split(s, "/") == [h, e];
  }
}
