/** Reading the reminder configuration: the offset lists (`parse_intervals`) and the
    proposal link prefix (the base-URL normalisation). */
module Config {
  import opened Wrappers
  import opened Text
  import opened Numerals

  /** `parse_intervals`: drop everything from the first '#', split the rest on ',',
      and read every field that is not blank after stripping, in order. None stands for
      the exception `float()` raises on a field that is not a number. */
  function ParseIntervals(value: string): (r: Option<seq<int>>)
    ensures r.None? <==> exists i :: 0 <= i < |CommaFields(value)| && ReadField(CommaFields(value)[i]).NotANumber?
    ensures r.Some? ==> |r.value| <= |CommaFields(value)|
  {
    ParseFields(CommaFields(value))
  }

  /** The comma-separated fields before the first '#'. */
  function CommaFields(value: string): seq<string>
  {
    Split(Split(value, '#')[0], ',')
  }

  /** One comma-separated field as `parse_intervals` reads it. */
  datatype Field = Blank | Number(value: int) | NotANumber

  /** A field is skipped when it is blank after stripping, and otherwise read as a
      number. */
  function ReadField(field: string): (f: Field)
    ensures f.Blank? <==> AllSpace(field)
  {
    var t := Strip(field);
    if t == [] then Blank
    else
      match ParseInt(t)
      case None => NotANumber
      case Some(x) => Number(x)
  }

  /** The fields read in order: None as soon as one is not a number, otherwise the
      numbers of the fields that are not blank. */
  function ParseFields(fields: seq<string>): (r: Option<seq<int>>)
    ensures r.None? <==> exists i :: 0 <= i < |fields| && ReadField(fields[i]).NotANumber?
    ensures r.Some? ==> |r.value| <= |fields|
  {
    if fields == [] then Some([])
    else
      var rest := ParseFields(fields[1..]);
      assert forall i :: 1 <= i < |fields| ==> fields[i] == fields[1..][i - 1];
      match ReadField(fields[0])
      case Blank => rest
      case NotANumber => None
      case Number(x) =>
        match rest
        case None => None
        case Some(xs) => Some([x] + xs)
  }

  /** An inline comment does not change the offsets read. */
  lemma ParseIntervalsIgnoresComment(value: string, comment: string)
    requires '#' !in value
    ensures ParseIntervals(value + "#" + comment) == ParseIntervals(value)
  {
    SplitAtFirst(value, '#', comment);
    SplitWithoutSeparator(value, '#');
  }

  /** A blank field, wherever it stands, contributes no offset. */
  lemma {:induction false} BlankFieldIgnored(before: seq<string>, blank: string, after: seq<string>)
    requires AllSpace(blank)
    ensures ParseFields(before + [blank] + after) == ParseFields(before + after)
  {
    var s := before + [blank] + after;
    if before == [] {
      assert s[0] == blank && s[1..] == after;
      assert before + after == after;
    } else {
      assert s[0] == before[0];
      assert s[1..] == before[1..] + [blank] + after;
      assert (before + after)[0] == before[0];
      assert (before + after)[1..] == before[1..] + after;
      BlankFieldIgnored(before[1..], blank, after);
    }
  }

  /** A field that is not a number fails the whole list, wherever it stands: `float()`
      raises and no offsets are read. */
  lemma {:induction false} NonNumberRejected(before: seq<string>, bad: string, after: seq<string>)
    requires ReadField(bad) == NotANumber
    ensures ParseFields(before + [bad] + after) == None
  {
    var s := before + [bad] + after;
    if before == [] {
      assert s[0] == bad;
    } else {
      assert s[0] == before[0];
      assert s[1..] == before[1..] + [bad] + after;
      NonNumberRejected(before[1..], bad, after);
    }
  }

  /** The configuration text that lists the offsets xs, comma separated. */
  function RenderIntervals(xs: seq<int>): string
  {
    if xs == [] then "" else Join(Fields(xs), ',')
  }

  function Fields(xs: seq<int>): (r: seq<string>)
    ensures |r| == |xs|
    ensures forall i :: 0 <= i < |xs| ==> r[i] == IntToString(xs[i])
  {
    if xs == [] then [] else [IntToString(xs[0])] + Fields(xs[1..])
  }

  /** Every list of offsets is read back from its rendering: one value per field, in
      the order written. */
  lemma ParseIntervalsRoundTrip(xs: seq<int>)
    ensures ParseIntervals(RenderIntervals(xs)) == Some(xs)
  {
    if xs == [] {
      assert Split("", '#') == [""];
      assert Split("", ',') == [""];
      assert AllSpace("");
    } else {
      var parts := Fields(xs);
      forall i | 0 <= i < |parts| ensures ',' !in parts[i] && '#' !in parts[i] {
        assert parts[i] == IntToString(xs[i]);
      }
      JoinAvoids(parts, ',', '#');
      SplitWithoutSeparator(Join(parts, ','), '#');
      SplitJoin(parts, ',');
      ParseRendered(xs);
    }
  }

  lemma {:induction false} ParseRendered(xs: seq<int>)
    ensures ParseFields(Fields(xs)) == Some(xs)
  {
    if xs != [] {
      var parts := Fields(xs);
      assert parts[1..] == Fields(xs[1..]);
      ParseRendered(xs[1..]);
      ReadNumeral(xs[0]);
      assert [xs[0]] + xs[1..] == xs;
    }
  }

  /** A rendered number is read back as that number. */
  lemma ReadNumeral(x: int)
    ensures ReadField(IntToString(x)) == Number(x)
  {
    StripNumeral(x);
    IntToStringRoundTrip(x);
  }

  /** A numeral padded with whitespace on either side, as in " 24", reads as its
      number: the padding is stripped before the field is read. */
  lemma ReadPadded(pre: string, x: int, post: string)
    requires AllSpace(pre) && AllSpace(post)
    ensures ReadField(pre + IntToString(x) + post) == Number(x)
  {
    var s := IntToString(x);
    assert !IsSpace(s[0]) && !IsSpace(s[|s| - 1]);
    StripPadded(pre, s, post);
    IntToStringRoundTrip(x);
  }

  /** Fields that each read as a number give exactly those numbers, in order. */
  lemma {:induction false} ReadAllNumbers(fields: seq<string>, xs: seq<int>)
    requires |fields| == |xs|
    requires forall i :: 0 <= i < |fields| ==> ReadField(fields[i]) == Number(xs[i])
    ensures ParseFields(fields) == Some(xs)
  {
    if fields != [] {
      forall i | 0 <= i < |fields| - 1
        ensures ReadField(fields[1..][i]) == Number(xs[1..][i])
      {
        assert fields[1..][i] == fields[i + 1];
      }
      ReadAllNumbers(fields[1..], xs[1..]);
      assert ParseFields(fields) == Some([xs[0]] + xs[1..]);
      assert [xs[0]] + xs[1..] == xs;
    }
  }

  /** The offsets xs written one per field, the i-th padded with the whitespace pre[i]
      before it and post[i] after it. */
  function PaddedFields(xs: seq<int>, pre: seq<string>, post: seq<string>): (r: seq<string>)
    requires |pre| == |xs| && |post| == |xs|
    ensures |r| == |xs|
  {
    seq(|xs|, i requires 0 <= i < |xs| => pre[i] + IntToString(xs[i]) + post[i])
  }

  /** Every non-empty list of offsets is read back, in order, from a comma-separated
      rendering whose fields carry any whitespace around the numerals, as in "0, 24". */
  lemma PaddedRoundTrip(xs: seq<int>, pre: seq<string>, post: seq<string>)
    requires |xs| >= 1 && |pre| == |xs| && |post| == |xs|
    requires forall i :: 0 <= i < |xs| ==> AllSpace(pre[i]) && AllSpace(post[i])
    ensures ParseIntervals(Join(PaddedFields(xs, pre, post), ',')) == Some(xs)
  {
    var parts := PaddedFields(xs, pre, post);
    forall i | 0 <= i < |parts|
      ensures ',' !in parts[i] && '#' !in parts[i]
      ensures ReadField(parts[i]) == Number(xs[i])
    {
      var numeral := IntToString(xs[i]);
      assert parts[i] == pre[i] + numeral + post[i];
      forall k | 0 <= k < |parts[i]|
        ensures parts[i][k] != ',' && parts[i][k] != '#'
      {
        if k < |pre[i]| {
          assert parts[i][k] == pre[i][k];
        } else if k < |pre[i]| + |numeral| {
          assert parts[i][k] == numeral[k - |pre[i]|];
        } else {
          assert parts[i][k] == post[i][k - |pre[i]| - |numeral|];
        }
      }
      ReadPadded(pre[i], xs[i], post[i]);
    }
    JoinAvoids(parts, ',', '#');
    SplitWithoutSeparator(Join(parts, ','), '#');
    SplitJoin(parts, ',');
    ReadAllNumbers(parts, xs);
  }

  /** The usual way the setting is written: "0, 24" gives the offsets 0 and 24. */
  lemma CommaSpaceSetting()
    ensures ParseIntervals("0, 24") == Some([0, 24])
  {
    var xs, pre, post := [0, 24], ["", " "], ["", ""];
    assert IntToString(0) == "0";
    assert IntToString(24) == "24";
    assert AllSpace(" ");
    var parts := PaddedFields(xs, pre, post);
    assert parts[0] == "" + "0" + "" == "0";
    assert parts[1] == " " + "24" + "" == " 24";
    assert parts == ["0", " 24"];
    assert Join(["0", " 24"], ',') == "0, 24";
    PaddedRoundTrip(xs, pre, post);
  }

  /** The proposal link prefix: the configured URL stripped, with the proposals path
      appended. */
  function NormalizeBaseUrl(raw: string): (r: string)
    ensures EndsWith(r, "/proposals/")
    ensures |Strip(raw)| <= |r| && r[..|Strip(raw)|] == Strip(raw)
    ensures |r| == |Strip(raw)| + (if EndsWith(Strip(raw), "/") then 10 else 11)
  {
    WithProposalsPath(Strip(raw))
  }

  /** The URL followed by "proposals/", with a '/' between them only when the URL does
      not already end in one. */
  function WithProposalsPath(url: string): (r: string)
    ensures EndsWith(r, "/proposals/")
    ensures |r| >= 10 && (r[..|r| - 10] == url || r[..|r| - 10] == url + "/")
    ensures r[..|r| - 10] == url <==> EndsWith(url, "/")
  {
    var dir := if EndsWith(url, "/") then url else url + "/";
    var r := dir + "proposals/";
    assert r[..|r| - 10] == dir;
    r
  }

  /** Whether the configured URL ends in '/' makes no difference. */
  lemma TrailingSlashIrrelevant(url: string)
    requires Trimmed(url) && !EndsWith(url, "/")
    ensures NormalizeBaseUrl(url) == NormalizeBaseUrl(url + "/")
  {
    SlashedTrimmed(url);
    StripTrimmed(url);
    StripTrimmed(url + "/");
    SlashedPath(url);
  }

  lemma SlashedTrimmed(url: string)
    requires Trimmed(url)
    ensures Trimmed(url + "/") && EndsWith(url + "/", "/")
  {
    var slashed := url + "/";
    assert !IsSpace('/');
    assert slashed[|slashed| - 1] == '/';
    assert slashed[|slashed| - 1..] == "/";
    if url != [] {
      assert slashed[0] == url[0];
    } else {
      assert slashed[0] == '/';
    }
  }

  lemma SlashedPath(url: string)
    requires !EndsWith(url, "/") && EndsWith(url + "/", "/")
    ensures WithProposalsPath(url) == WithProposalsPath(url + "/")
  {
  }
}
