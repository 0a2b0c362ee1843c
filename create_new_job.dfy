/**
  The job editor of `src/components/pages/jobs/CreateNewJob.tsx`: the field
  checks of its form schema, how an existing job is loaded into the form
  (`presetForm`), how employer data fills recruiting criteria, and how the form is
  turned into the create or update request (`submitJob`).
  Dates go through date-fns in the source; here the parser and the reformatter
  are parameters, `None` standing for an invalid date.
*/
module CreateNewJob {
  import opened Wrappers
  import opened Text
  import opened Js
  import opened Types
  import opened Seqs
  import Sorting
  import Helper
  import Features
  import Api
  import Constants

  // ------------------------------------------------------------ thumbnail

  /** The thumbnail test: a file, or a string that is not blank. */
  predicate ThumbnailValid(u: Upload)
  {
    u.File? || (u.Path? && Trim(u.path) != "")
  }

  /** A thumbnail path passes exactly when it has a character other than whitespace. */
  lemma ThumbnailValidSpec(u: Upload)
    ensures ThumbnailValid(u) <==> u.File? || (u.Path? && exists i | 0 <= i < |u.path| :: !IsJsWhitespace(u.path[i]))
  {
    if u.Path? {
      TrimEmpty(u.path);
    }
  }

  /** The form value of an image URL that may be missing: the URL, or `null`. */
  function UploadOfUrl(url: Option<string>): Upload
  {
    if url.None? then NullUpload else Path(url.value)
  }

  /** A loaded job has a valid thumbnail exactly when it has at least one thumbnail image. */
  lemma PresetThumbnailValid(images: Option<seq<ImageDetail>>, base: string)
    ensures ThumbnailValid(UploadOfUrl(Helper.FirstFullImage(images, base)))
      <==> images.Some? && images.value != []
  {
    var url := Helper.FirstFullImage(images, base);
    if url.Some? {
      var s := url.value;
      assert s[|base|] == '/' && !IsJsWhitespace(s[|base|]);
      TrimEmpty(s);
    }
  }

  // ------------------------------------------------------- other websites

  predicate NoLineTerminator(s: string)
  {
    forall i | 0 <= i < |s| :: !IsLineTerminator(s[i])
  }

  predicate NoWhitespace(s: string)
  {
    forall i | 0 <= i < |s| :: !IsJsWhitespace(s[i])
  }

  /** `https?:\/\/[^\s]+$` from the start of `t`. */
  predicate SchemeUrl(t: string)
  {
    (StartsWith(t, "http://") && |t| > 7 && NoWhitespace(t[7..]))
    || (StartsWith(t, "https://") && |t| > 8 && NoWhitespace(t[8..]))
  }

  /** `\s*https?:\/\/[^\s]+$`: whitespace, then a URL running to the end. */
  predicate UrlTail(t: string)
  {
    exists j | 0 <= j <= |t| :: AllWhitespace(t[..j]) && SchemeUrl(t[j..])
  }

  /** `/^.+?:\s*https?:\/\/[^\s]+$/`: a non-empty label on one line, a colon, then the URL. */
  predicate WebsiteLine(line: string)
  {
    exists k | 0 < k < |line| :: line[k] == ':' && NoLineTerminator(line[..k]) && UrlTail(line[k + 1..])
  }

  /**
    The whitespace before the URL is never ambiguous: the tail matches exactly when
    the URL pattern matches once leading whitespace is trimmed.
  */
  lemma UrlTailTrimmed(t: string)
    ensures UrlTail(t) <==> SchemeUrl(TrimStart(t))
  {
    TrimStartSuffix(t);
    var m := |t| - |TrimStart(t)|;
    TrimStartPrefix(t, m);
    if UrlTail(t) {
      var j :| 0 <= j <= |t| && AllWhitespace(t[..j]) && SchemeUrl(t[j..]);
      SchemeUrlHead(t, j);
      assert m < |t| ==> t[m] == TrimStart(t)[0];
      WhitespacePrefix(t, j);
      WhitespacePrefix(t, m);
    } else {
      assert !(AllWhitespace(t[..m]) && SchemeUrl(t[m..]));
    }
  }

  lemma SchemeUrlHead(t: string, j: int)
    requires 0 <= j <= |t| && SchemeUrl(t[j..])
    ensures j < |t| && !IsJsWhitespace(t[j])
  {
    assert t[j..][0] == t[j];
  }

  lemma WhitespacePrefix(t: string, n: int)
    requires 0 <= n <= |t| && AllWhitespace(t[..n])
    ensures forall i | 0 <= i < n :: IsJsWhitespace(t[i])
  {
    assert forall i | 0 <= i < n :: t[i] == t[..n][i];
  }

  /** `TrimStart` removes exactly the leading whitespace: what it removes is all whitespace, what it keeps starts otherwise. */
  lemma {:induction false} TrimStartPrefix(t: string, m: int)
    requires m == |t| - |TrimStart(t)|
    ensures 0 <= m <= |t| && AllWhitespace(t[..m]) && t[m..] == TrimStart(t)
    decreases |t|
  {
    TrimStartSuffix(t);
    if t != [] && IsJsWhitespace(t[0]) {
      TrimStartPrefix(t[1..], m - 1);
      assert forall i | 1 <= i < m :: t[..m][i] == t[1..][..m - 1][i - 1];
    }
  }

  /** A label, a colon, optional spaces and an http(s) URL without whitespace form a valid line. */
  lemma WebsiteLineOf(caption: string, spaces: string, secure: bool, rest: string)
    requires caption != [] && NoLineTerminator(caption)
    requires AllWhitespace(spaces)
    requires rest != [] && NoWhitespace(rest)
    ensures WebsiteLine(caption + ":" + spaces + (if secure then "https://" else "http://") + rest)
  {
    var scheme := if secure then "https://" else "http://";
    var line := caption + ":" + spaces + scheme + rest;
    var k := |caption|;
    assert line[..k] == caption;
    var t := line[k + 1..];
    assert t == spaces + scheme + rest;
    assert t[..|spaces|] == spaces;
    assert t[|spaces|..] == scheme + rest;
    assert (scheme + rest)[|scheme|..] == rest;
    assert SchemeUrl(t[|spaces|..]);
    assert UrlTail(t);
  }

  /** A valid line has a colon after a non-empty label and ends in a character that is not whitespace. */
  lemma WebsiteLineShape(line: string)
    requires WebsiteLine(line)
    ensures exists k | 0 < k < |line| :: line[k] == ':'
    ensures !IsJsWhitespace(line[|line| - 1])
  {
    var k :| 0 < k < |line| && line[k] == ':' && NoLineTerminator(line[..k]) && UrlTail(line[k + 1..]);
    var t := line[k + 1..];
    var j :| 0 <= j <= |t| && AllWhitespace(t[..j]) && SchemeUrl(t[j..]);
    var u := t[j..];
    assert u[|u| - 1] == line[|line| - 1];
    if StartsWith(u, "https://") && |u| > 8 && NoWhitespace(u[8..]) {
      assert u[8..][|u| - 9] == u[|u| - 1];
    } else {
      assert u[7..][|u| - 8] == u[|u| - 1];
    }
  }

  /**
    The other-websites test: no text at all passes; otherwise each line of the
    trimmed text, itself trimmed, must be a valid line.
  */
  predicate OtherWebsitesValid(value: Option<string>)
  {
    value.None? || value.value == ""
    || var lines := Split(Trim(value.value), '\n');
       forall i | 0 <= i < |lines| :: WebsiteLine(Trim(lines[i]))
  }

  lemma {:induction false} JoinEnds(parts: seq<string>, sep: string)
    requires |parts| >= 1 && forall i | 0 <= i < |parts| :: parts[i] != []
    ensures var s := Join(parts, sep); s != [] && s[0] == parts[0][0] && s[|s| - 1] == parts[|parts| - 1][|parts[|parts| - 1]| - 1]
    decreases |parts|
  {
    if |parts| > 1 {
      var rest := parts[1..];
      assert rest[|rest| - 1] == parts[|parts| - 1];
      JoinEnds(rest, sep);
    }
  }

  /** Trimmed valid lines joined by newlines pass the test. */
  lemma OtherWebsitesOfLines(lines: seq<string>)
    requires |lines| >= 1
    requires forall i | 0 <= i < |lines| :: '\n' !in lines[i] && Trim(lines[i]) == lines[i] && WebsiteLine(lines[i])
    ensures OtherWebsitesValid(Some(Join(lines, "\n")))
  {
    var text := Join(lines, "\n");
    JoinOfLinesTrimmed(lines);
    SplitJoin(lines, '\n');
    assert Split(Trim(text), '\n') == lines;
  }

  /** Valid lines joined by newlines have no whitespace at either end. */
  lemma JoinOfLinesTrimmed(lines: seq<string>)
    requires |lines| >= 1
    requires forall i | 0 <= i < |lines| :: Trim(lines[i]) == lines[i] && WebsiteLine(lines[i])
    ensures Trim(Join(lines, "\n")) == Join(lines, "\n")
  {
    forall i | 0 <= i < |lines|
      ensures lines[i] != []
    {
      WebsiteLineShape(lines[i]);
    }
    WebsiteLineHead(lines[0]);
    WebsiteLineShape(lines[|lines| - 1]);
    JoinEnds(lines, "\n");
    TrimOfNoWhitespaceEnds(Join(lines, "\n"));
  }

  /** A valid line that trims to itself starts with a character that is not whitespace. */
  lemma WebsiteLineHead(line: string)
    requires WebsiteLine(line) && Trim(line) == line
    ensures line != [] && !IsJsWhitespace(line[0])
  {
    var k :| 0 < k < |line| && line[k] == ':' && NoLineTerminator(line[..k]) && UrlTail(line[k + 1..]);
    assert line[0] == line[..k][0] && !IsLineTerminator(line[0]);
    TrimStartNoWhitespaceHead(line);
  }

  /** A string that trims to itself does not start with whitespace. */
  lemma TrimStartNoWhitespaceHead(s: string)
    requires s != [] && Trim(s) == s
    ensures !IsJsWhitespace(s[0])
  {
    TrimStartSuffix(s);
    assert |TrimEnd(TrimStart(s))| <= |TrimStart(s)| by {
      TrimEndPrefix(TrimStart(s));
    }
  }

  lemma {:induction false} TrimEndPrefix(s: string)
    ensures |TrimEnd(s)| <= |s| && TrimEnd(s) == s[..|TrimEnd(s)|]
    decreases |s|
  {
    if s != [] && IsJsWhitespace(s[|s| - 1]) {
      TrimEndPrefix(s[..|s| - 1]);
    }
  }

  // ---------------------------------------------------------------- images

  /** The file types an uploaded image may have. */
  const ImageMimeTypes: seq<string> := ["image/jpeg", "image/png", "image/webp"]

  const ImageSchemes: seq<string> := ["http://", "https://"]

  const ImageExtensions: seq<string> := ["jpg", "jpeg", "png", "webp"]

  /** How the `i` flag compares a character with a lower-case letter: only ASCII capitals fold. */
  function AsciiLower(c: char): (r: char)
  {
    if 'A' <= c <= 'Z' then (c as int + 32) as char else c
  }

  /** `s` matches the lower-case literal `lit` case-insensitively. */
  predicate SameIgnoringCase(s: string, lit: string)
  {
    |s| == |lit| && forall i | 0 <= i < |s| :: AsciiLower(s[i]) == lit[i]
  }

  /** `/^https?:\/\/.+\.(jpg|jpeg|png|webp)$/i` for one choice of scheme and extension. */
  predicate ImageUrlWith(s: string, scheme: string, ext: string)
  {
    |scheme| + 2 + |ext| <= |s|
    && SameIgnoringCase(s[..|scheme|], scheme)
    && SameIgnoringCase(s[|s| - |ext| - 1..], "." + ext)
    && NoLineTerminator(s[|scheme|..|s| - |ext| - 1])
  }

  /** `/^https?:\/\/.+\.(jpg|jpeg|png|webp)$/i.test(s)`. */
  predicate ImageUrl(s: string)
  {
    exists a, b | 0 <= a < |ImageSchemes| && 0 <= b < |ImageExtensions| :: ImageUrlWith(s, ImageSchemes[a], ImageExtensions[b])
  }

  /**
    The company and staff image test: a file of an accepted type, or an image URL;
    `null` and an unset field fail.
  */
  predicate ImageValid(u: Upload)
  {
    match u
    case File(m) => m in ImageMimeTypes
    case Path(s) => ImageUrl(s)
    case _ => false
  }

  function AsciiLowerString(s: string): (r: string)
    ensures |r| == |s| && forall i | 0 <= i < |s| :: r[i] == AsciiLower(s[i])
  {
    seq(|s|, i requires 0 <= i < |s| => AsciiLower(s[i]))
  }

  lemma ImageUrlWithLower(s: string, scheme: string, ext: string)
    ensures ImageUrlWith(s, scheme, ext) <==> ImageUrlWith(AsciiLowerString(s), scheme, ext)
  {
    var l := AsciiLowerString(s);
    if |scheme| + 2 + |ext| <= |s| {
      var n := |s| - |ext| - 1;
      assert forall i | 0 <= i < |scheme| :: l[..|scheme|][i] == AsciiLower(s[..|scheme|][i]);
      assert forall i | 0 <= i < |s| - n :: l[n..][i] == AsciiLower(s[n..][i]);
      assert forall i | 0 <= i < n - |scheme| ::
        l[|scheme|..n][i] == AsciiLower(s[|scheme|..n][i]);
    }
  }

  /** The URL test ignores the case of ASCII letters. */
  lemma ImageUrlCaseInsensitive(s: string)
    ensures ImageUrl(s) <==> ImageUrl(AsciiLowerString(s))
  {
    forall a, b | 0 <= a < |ImageSchemes| && 0 <= b < |ImageExtensions|
      ensures ImageUrlWith(s, ImageSchemes[a], ImageExtensions[b])
        <==> ImageUrlWith(AsciiLowerString(s), ImageSchemes[a], ImageExtensions[b])
    {
      ImageUrlWithLower(s, ImageSchemes[a], ImageExtensions[b]);
    }
  }

  predicate LowerLiteral(s: string)
  {
    forall i | 0 <= i < |s| :: AsciiLower(s[i]) == s[i]
  }

  /** An http(s) URL of a non-empty one-line name with an image extension passes. */
  lemma ImageUrlOf(a: nat, name: string, b: nat)
    requires a < |ImageSchemes| && b < |ImageExtensions|
    requires name != [] && NoLineTerminator(name)
    ensures ImageUrl(ImageSchemes[a] + name + "." + ImageExtensions[b])
  {
    var scheme := ImageSchemes[a];
    var ext := ImageExtensions[b];
    var s := scheme + name + "." + ext;
    assert LowerLiteral(scheme) && LowerLiteral("." + ext);
    assert s[..|scheme|] == scheme;
    assert s[|s| - |ext| - 1..] == "." + ext;
    assert s[|scheme|..|s| - |ext| - 1] == name;
    assert ImageUrlWith(s, scheme, ext);
  }

  /** A passing URL is long enough to hold a scheme, one character and an extension. */
  lemma ImageUrlShape(s: string)
    requires ImageUrl(s)
    ensures |s| >= 12 && AsciiLowerString(s[..4]) == "http" && '.' in s
  {
    var a, b :| 0 <= a < |ImageSchemes| && 0 <= b < |ImageExtensions| && ImageUrlWith(s, ImageSchemes[a], ImageExtensions[b]);
    var ext := ImageExtensions[b];
    assert s[|s| - |ext| - 1..][0] == s[|s| - |ext| - 1];
    assert forall i | 0 <= i < 4 :: s[..|ImageSchemes[a]|][i] == s[i];
  }

  // ----------------------------------------------------------------- dates

  /** `!isNaN(Date.parse(value || ''))`, with the parser as a parameter. */
  predicate DateValid(value: Option<string>, parse: string -> Option<int>)
  {
    parse(value.GetOr("")).Some?
  }

  /**
    The end-after-start test: both dates must be present and the end must not be
    earlier; an invalid date compares false.
  */
  predicate EndAfterStart(start: Option<string>, end: Option<string>, parse: string -> Option<int>)
  {
    if start.None? || start.value == "" || end.None? || end.value == "" then false
    else parse(end.value).Some? && parse(start.value).Some? && parse(end.value).value >= parse(start.value).value
  }

  /** Both tests on the end date. */
  predicate PublicDateEndValid(start: Option<string>, end: Option<string>, parse: string -> Option<int>)
  {
    DateValid(end, parse) && EndAfterStart(start, end, parse)
  }

  /**
    The end date passes exactly when both dates are given, both are valid dates,
    and the end is not before the start; a valid date as both start and end passes.
  */
  lemma PublicDateEndSpec(start: Option<string>, end: Option<string>, parse: string -> Option<int>)
    ensures PublicDateEndValid(start, end, parse) <==>
      start.Some? && start.value != "" && end.Some? && end.value != ""
      && DateValid(start, parse) && DateValid(end, parse)
      && parse(start.value).value <= parse(end.value).value
    ensures start == end && DateValid(start, parse) && start.GetOr("") != "" ==> PublicDateEndValid(start, end, parse)
  {
  }

  // ------------------------------------------------------------ support URL

  /**
    The support URL test: nothing is required when applications go through the
    site (`applyType` '1'); otherwise a non-empty URL is required.
  */
  predicate SupportUrlValid(applyType: string, supportUrl: Option<string>, isUrl: string -> bool)
  {
    applyType == "1" || (supportUrl.Some? && supportUrl.value != "" && isUrl(supportUrl.value))
  }

  /** The URL may be left out exactly when `applyType` is '1'. */
  lemma SupportUrlOptional(applyType: string, isUrl: string -> bool)
    ensures SupportUrlValid(applyType, None, isUrl) <==> applyType == "1"
    ensures SupportUrlValid(applyType, Some(""), isUrl) <==> applyType == "1"
  {
  }

  // -------------------------------------------------------- the loaded job

  /** A workplace introduction of a stored job: its images and description. */
  datatype CompanyInfo = CompanyInfo(images: Option<seq<ImageDetail>>, description: string)

  /** A staff introduction of a stored job. */
  datatype StaffInfo = StaffInfo(images: Option<seq<ImageDetail>>, firstName: string, lastName: string, post: string,
                                 career: Option<string>, introductionText: Option<string>)

  /**
    A stored job as the editor loads it, restricted to the fields the form reads;
    its recruiting criteria are passed on their own, since loading sorts them in place.
  */
  datatype JobDetail = JobDetail(id: int, employerId: int, templateId: int, jobTitle: string, leadStatement: string,
                                 publicStatus: int, pay: string, publicFormUrl: Option<string>, dateStart: string,
                                 dateEnd: string, anotherUrlText: Option<string>, features: seq<FeatureItem>,
                                 staffInfos: seq<StaffInfo>, workplaceIntroductions: seq<CompanyInfo>,
                                 jobThumbnails: Option<seq<ImageDetail>>)

  /** A company image row of the form. */
  datatype CompanyImageForm = CompanyImageForm(image: Upload, description: string)

  /** A staff row of the form. */
  datatype StaffImageForm = StaffImageForm(photo: Upload, firstName: string, lastName: string, position: string,
                                           career: Option<string>, introduction: Option<string>)

  /**
    The form's values. A recruiting-criteria slot is `None` where the array has a
    hole (no element was ever written there).
  */
  datatype JobForm = JobForm(company: string, title: string, thumbnail: Upload, features: Option<seq<string>>,
                             introduction: string, otherWebsites: Option<string>,
                             companyImages: Option<seq<CompanyImageForm>>, staffImages: Option<seq<StaffImageForm>>,
                             salary: string, recruitingCriterias: Option<seq<Option<string>>>,
                             publicDateStart: Option<string>, publicDateEnd: Option<string>, applyType: string,
                             supportUrl: Option<string>, status: string)

  // ------------------------------------------------------------ feature keys

  /** `` `${i.parent_id}-${i.id}` ``: a feature's key, with a missing parent rendered as "null". */
  function FeatureKeyOf(f: FeatureItem): string
  {
    (if f.parentId.None? then "null" else IntToString(f.parentId.value)) + "-" + IntToString(f.id)
  }

  function PresetFeatureKeys(items: seq<FeatureItem>): (r: seq<string>)
    ensures |r| == |items| && forall i | 0 <= i < |items| :: r[i] == FeatureKeyOf(items[i])
  {
    seq(|items|, i requires 0 <= i < |items| => FeatureKeyOf(items[i]))
  }

  /** `Number(key.split('-')[1])`: NaN when the key has no '-' (`Number(undefined)`). */
  function DecodeFeatureKey(key: string): Number
  {
    var pieces := Split(key, '-');
    if |pieces| > 1 then ToNumber(pieces[1]) else NaN
  }

  /** `formData.features?.map(...) || []`. */
  function SubmitFeatures(features: Option<seq<string>>): (r: seq<Number>)
    ensures features.Some? ==> |r| == |features.value| && forall i | 0 <= i < |r| :: r[i] == DecodeFeatureKey(features.value[i])
    ensures features.None? ==> r == []
  {
    if features.None? then []
    else seq(|features.value|, i requires 0 <= i < |features.value| => DecodeFeatureKey(features.value[i]))
  }

  /** A key decodes to its feature's id, whatever its parent, for non-negative ids. */
  lemma FeatureKeyRoundTrip(f: FeatureItem)
    requires f.id >= 0 && (f.parentId.None? || f.parentId.value >= 0)
    ensures DecodeFeatureKey(FeatureKeyOf(f)) == Int(f.id)
  {
    if f.parentId.Some? {
      Features.FeatureKeyDecodes(f.parentId.value, f.id);
      assert FeatureKeyOf(f) == Features.FeatureKey(f.parentId.value, f.id);
    } else {
      var id := IntToString(f.id);
      Features.NatStringHasNoDash(f.id);
      assert FeatureKeyOf(f) == "null" + ['-'] + id;
      SplitAtSeparator("null", id, '-');
      SplitNoSeparator(id, '-');
      ToNumberOfIntToString(f.id);
    }
  }

  /** The ids of features, as numbers. */
  function FeatureIds(items: seq<FeatureItem>): (r: seq<Number>)
    ensures |r| == |items| && forall i | 0 <= i < |items| :: r[i] == Int(items[i].id)
  {
    seq(|items|, i requires 0 <= i < |items| => Int(items[i].id))
  }

  /** Loading a job's features into the form and submitting them sends back their ids, in order. */
  lemma PresetFeaturesRoundTrip(items: seq<FeatureItem>)
    requires forall i | 0 <= i < |items| :: items[i].id >= 0 && (items[i].parentId.None? || items[i].parentId.value >= 0)
    ensures SubmitFeatures(Some(PresetFeatureKeys(items))) == FeatureIds(items)
  {
    forall i | 0 <= i < |items|
      ensures DecodeFeatureKey(FeatureKeyOf(items[i])) == Int(items[i].id)
    {
      FeatureKeyRoundTrip(items[i]);
    }
  }

  // ------------------------------------------------------------ criteria slots

  /**
    `slots[index] = {body}` on a JavaScript array: a negative index adds no element;
    an index past the end grows the array, leaving holes in between.
  */
  function SetSlot(slots: seq<Option<string>>, index: int, body: string): (r: seq<Option<string>>)
    ensures |r| == if 0 <= index && index >= |slots| then index + 1 else |slots|
    ensures forall k | 0 <= k < |r| ::
      r[k] == if k == index then Some(body) else if k < |slots| then slots[k] else None
  {
    if index < 0 then slots
    else if index < |slots| then slots[index := Some(body)]
    else slots + seq(index - |slots|, _ => None) + [Some(body)]
  }

  /** A loaded criterion is written unless it is filled from the employer and its body is empty. */
  predicate PresetWrites(c: RecruitingCriteria)
  {
    c.clinicFlg == 0 || c.body != ""
  }

  /** The criteria written to slot `k`: those at display order `k + 1`. */
  function TargetsSlot(k: int): RecruitingCriteria -> bool
  {
    c => PresetWrites(c) && c.displayOrder - 1 == k
  }

  /** The slots after the criteria `cs` are written in order. */
  function PresetSlots(slots: seq<Option<string>>, cs: seq<RecruitingCriteria>): seq<Option<string>>
    decreases |cs|
  {
    if cs == [] then slots
    else
      var c := cs[|cs| - 1];
      var r := PresetSlots(slots, cs[..|cs| - 1]);
      if PresetWrites(c) then SetSlot(r, c.displayOrder - 1, c.body) else r
  }

  /**
    Slot `k` holds the body of the last written criterion with display order
    `k + 1`; with none, it keeps its earlier content, or is a hole past the old end.
    The slots extend exactly as far as the highest written display order.
  */
  lemma {:induction false} PresetSlotsAt(slots: seq<Option<string>>, cs: seq<RecruitingCriteria>, k: nat)
    ensures var r := PresetSlots(slots, cs);
      (k < |r| <==> k < |slots| || exists j | 0 <= j < |cs| :: k < cs[j].displayOrder && PresetWrites(cs[j]))
      && (k < |r| ==> r[k] == match LastIndex(cs, TargetsSlot(k))
                              case Some(j) => Some(cs[j].body)
                              case None => if k < |slots| then slots[k] else None)
    decreases |cs|
  {
    if cs != [] {
      var n := |cs| - 1;
      var init := cs[..n];
      PresetSlotsAt(slots, init, k);
      assert cs == init + [cs[n]];
      LastIndexSnoc(init, cs[n], TargetsSlot(k));
      LastIndexSpec(init, TargetsSlot(k));
      assert forall j | 0 <= j < n :: cs[j] == init[j];
      var r0 := PresetSlots(slots, init);
      var r := PresetSlots(slots, cs);
      if !TargetsSlot(k)(cs[n]) && k < |r| {
        assert r[k] == if k < |r0| then r0[k] else None;
      }
    }
  }

  /**
    The criteria half of `presetForm`: sorts the job's criteria in place by display
    order, then writes each one's body into the slot its display order names.
  */
  method PresetCriteria(current: Option<seq<Option<string>>>, criterias: array<RecruitingCriteria>)
    returns (updated: seq<Option<string>>)
    modifies criterias
    ensures Sorting.SortedBy(criterias[..], Api.DisplayOrder)
    ensures multiset(criterias[..]) == multiset(old(criterias[..]))
    ensures updated == PresetSlots(current.GetOr([]), criterias[..])
  {
    updated := current.GetOr([]);
    Sorting.SortBy(criterias, Api.DisplayOrder);
    var i := 0;
    while i < criterias.Length
      invariant 0 <= i <= criterias.Length
      invariant updated == PresetSlots(current.GetOr([]), criterias[..i])
    {
      var c := criterias[i];
      assert criterias[..i + 1][..i] == criterias[..i];
      if c.clinicFlg == 0 || c.body != "" {
        updated := SetSlot(updated, c.displayOrder - 1, c.body);
      }
      i := i + 1;
    }
    assert criterias[..criterias.Length] == criterias[..];
  }

  // ----------------------------------------------------------- employer fill

  /** A criterion taken from the employer's record, whose field there is filled in. */
  predicate Fills(c: RecruitingCriteria, companyData: map<string, string>)
  {
    c.clinicFlg != 0 && c.callingName in companyData && companyData[c.callingName] != ""
  }

  /** The slots after the first `|cs|` criteria of the catalog have been looked at, by position. */
  function FilledSlots(slots: seq<Option<string>>, cs: seq<RecruitingCriteria>, companyData: map<string, string>)
    : seq<Option<string>>
    decreases |cs|
  {
    if cs == [] then slots
    else
      var n := |cs| - 1;
      var r := FilledSlots(slots, cs[..n], companyData);
      if Fills(cs[n], companyData) then SetSlot(r, n, companyData[cs[n].callingName]) else r
  }

  /**
    Slot `k` takes the employer's value for criterion `k` when that criterion is
    filled from the employer and the value is non-empty; every other slot keeps
    its content, and new positions in between are holes.
  */
  lemma {:induction false} FilledSlotsAt(slots: seq<Option<string>>, cs: seq<RecruitingCriteria>,
                                         companyData: map<string, string>, k: nat)
    ensures var r := FilledSlots(slots, cs, companyData);
      |slots| <= |r| <= (if |cs| > |slots| then |cs| else |slots|)
      && (k < |cs| && Fills(cs[k], companyData) ==> k < |r| && r[k] == Some(companyData[cs[k].callingName]))
      && (!(k < |cs| && Fills(cs[k], companyData)) && k < |r| ==> r[k] == if k < |slots| then slots[k] else None)
    decreases |cs|
  {
    if cs != [] {
      var n := |cs| - 1;
      FilledSlotsAt(slots, cs[..n], companyData, k);
      assert k < n ==> cs[..n][k] == cs[k];
    }
  }

  /**
    The effect that copies employer data into the criteria: for each catalog
    criterion, by position, the employer's non-empty value replaces that slot.
  */
  method FillFromEmployer(criterias: seq<RecruitingCriteria>, companyData: map<string, string>,
                          slots: seq<Option<string>>) returns (updated: seq<Option<string>>)
    ensures updated == FilledSlots(slots, criterias, companyData)
  {
    updated := slots;
    var index := 0;
    while index < |criterias|
      invariant 0 <= index <= |criterias|
      invariant updated == FilledSlots(slots, criterias[..index], companyData)
    {
      var c := criterias[index];
      assert criterias[..index + 1][..index] == criterias[..index];
      if c.clinicFlg != 0 && c.callingName in companyData && companyData[c.callingName] != "" {
        updated := SetSlot(updated, index, companyData[c.callingName]);
      }
      index := index + 1;
    }
    assert criterias[..|criterias|] == criterias;
  }

  // ---------------------------------------------------------------- submitJob

  /** The number of slots holding a criterion body (not holes). */
  function FilledCount(slots: seq<Option<string>>): (n: nat)
    ensures n <= |slots|
    decreases |slots|
  {
    if slots == [] then 0
    else FilledCount(slots[..|slots| - 1]) + if slots[|slots| - 1].Some? then 1 else 0
  }

  /**
    `rcData`, already without holes: each slot's body paired with the id of the
    catalog criterion at the same position. A slot past the end of the catalog, or
    any slot while the catalog is not loaded, makes the submission throw (`None`).
  */
  function RcData(slots: seq<Option<string>>, criterias: Option<seq<RecruitingCriteria>>): Option<seq<(int, string)>>
    decreases |slots|
  {
    if slots == [] then Some([])
    else
      var n := |slots| - 1;
      var r := RcData(slots[..n], criterias);
      if slots[n].None? then r
      else if criterias.None? || n >= |criterias.value| || r.None? then None
      else Some(r.value + [(criterias.value[n].id, slots[n].value)])
  }

  /**
    The submission goes through exactly when every filled slot has a catalog
    criterion at its position; then there is one entry per filled slot, in slot
    order, pairing the body with that criterion's id.
  */
  lemma {:induction false} RcDataSpec(slots: seq<Option<string>>, criterias: Option<seq<RecruitingCriteria>>)
    ensures RcData(slots, criterias).Some? <==>
      forall k | 0 <= k < |slots| && slots[k].Some? :: criterias.Some? && k < |criterias.value|
    ensures RcData(slots, criterias).Some? ==>
      |RcData(slots, criterias).value| == FilledCount(slots)
      && forall k | 0 <= k < |slots| && slots[k].Some? ::
           FilledCount(slots[..k]) < FilledCount(slots)
           && RcData(slots, criterias).value[FilledCount(slots[..k])] == (criterias.value[k].id, slots[k].value)
    decreases |slots|
  {
    if slots != [] {
      var n := |slots| - 1;
      var init := slots[..n];
      RcDataSpec(init, criterias);
      assert forall k | 0 <= k < n :: init[k] == slots[k];
      assert forall k | 0 <= k < n :: init[..k] == slots[..k];
      assert slots[..n] == init;
      forall k | 0 <= k < n && slots[k].Some?
        ensures FilledCount(slots[..k]) < FilledCount(init)
      {
        FilledCountPrefix(init, k);
      }
    }
  }

  lemma {:induction false} FilledCountPrefix(slots: seq<Option<string>>, k: nat)
    requires k < |slots| && slots[k].Some?
    ensures FilledCount(slots[..k]) < FilledCount(slots)
    decreases |slots|
  {
    var n := |slots| - 1;
    if k < n {
      FilledCountPrefix(slots[..n], k);
      assert slots[..n][..k] == slots[..k];
    } else {
      assert slots[..n] == slots[..k];
    }
  }

  /** `typeof` of an image field. */
  function TypeOf(u: Upload): string
  {
    match u
    case File(_) => "object"
    case Path(_) => "string"
    case NullUpload => "object"
    case UnsetUpload => "undefined"
  }

  /** An optional string as a JavaScript value: `undefined` when missing. */
  function OptionalString(s: Option<string>): Value
  {
    if s.None? then Undefined else Str(s.value)
  }

  function Nums(xs: seq<Number>): (r: seq<Value>)
    ensures |r| == |xs| && forall i | 0 <= i < |xs| :: r[i] == Num(xs[i])
  {
    seq(|xs|, i requires 0 <= i < |xs| => Num(xs[i]))
  }

  /** The description and image kind sent for each company image row. */
  function WorkplaceIntroductions(rows: Option<seq<CompanyImageForm>>): Value
  {
    var xs := rows.GetOr([]);
    Arr(seq(|xs|, i requires 0 <= i < |xs| =>
      Obj([("description", Str(xs[i].description)), ("type", Str(TypeOf(xs[i].image)))])))
  }

  /** The fields sent for the staff row at `index`, numbered from 1 by `order_by`. */
  function StaffFields(row: StaffImageForm, index: nat): seq<(string, Value)>
  {
    [("first_name", Str(row.firstName)), ("last_name", Str(row.lastName)), ("post", Str(row.position)),
     ("career", OptionalString(row.career)), ("order_by", Num(Int(index + 1))),
     ("introduction_text", OptionalString(row.introduction)), ("type", Str(TypeOf(row.photo)))]
  }

  /** One object per staff row, in order, the row at position `k` numbered `k + 1`. */
  function StaffInfos(rows: Option<seq<StaffImageForm>>): (r: Value)
    ensures r.Arr? && |r.items| == |rows.GetOr([])|
    ensures forall k | 0 <= k < |r.items| ::
      r.items[k].Obj? && |r.items[k].fields| == 7 && r.items[k].fields[4] == ("order_by", Num(Int(k + 1)))
      && r.items[k].fields[0] == ("first_name", Str(rows.value[k].firstName))
  {
    var xs := rows.GetOr([]);
    Arr(seq(|xs|, i requires 0 <= i < |xs| => Obj(StaffFields(xs[i], i))))
  }

  function CriteriaValue(rc: seq<(int, string)>): Value
  {
    Arr(seq(|rc|, i requires 0 <= i < |rc| => Obj([("id", Num(Int(rc[i].0))), ("body", Str(rc[i].1))])))
  }

  /** `public_status`: 2 (private) for a draft, 1 (public) otherwise. */
  function PublicStatus(isDraft: bool): int
  {
    if isDraft then 2 else 1
  }

  /**
    The `param` record of `submitJob`, or `None` where building it throws: a filled
    criteria slot without a catalog criterion, or a public date that does not parse
    (`toApiDate` turns the form's date into the API's, `None` for an invalid one).
  */
  function SubmitParams(form: JobForm, isDraft: bool, criterias: Option<seq<RecruitingCriteria>>,
                        toApiDate: string -> Option<string>): Option<seq<(string, Value)>>
  {
    var rc := RcData(form.recruitingCriterias.GetOr([]), criterias);
    var start := toApiDate(form.publicDateStart.GetOr(""));
    var end := toApiDate(form.publicDateEnd.GetOr(""));
    if rc.None? || start.None? || end.None? then None
    else Some([("employer_id", Num(ToNumber(form.company))),
               ("job_title", Str(form.title)),
               ("features", Arr(Nums(SubmitFeatures(form.features)))),
               ("job_lead_statement", Str(form.introduction)),
               ("another_url_text", Str(form.otherWebsites.GetOr(""))),
               ("workplaceIntroductions", WorkplaceIntroductions(form.companyImages)),
               ("staffInfos", StaffInfos(form.staffImages)),
               ("pay", Str(form.salary)),
               ("recruitingCriterias", CriteriaValue(rc.value)),
               ("clinic_public_date_start", Str(start.value)),
               ("clinic_public_date_end", Str(end.value)),
               ("clinic_public_form_url", OptionalString(form.supportUrl)),
               ("job_detail_page_template_id", Num(ToNumber(form.applyType))),
               ("public_status", Num(Int(PublicStatus(isDraft))))])
  }

  /**
    The status sent is the one the status options call private (draft) for a draft
    and public otherwise, and it is the value of that option.
  */
  lemma PublicStatusOption(isDraft: bool)
    ensures var o := Constants.JobStatusOptions[PublicStatus(isDraft) - 1];
      o.value == IntToString(PublicStatus(isDraft))
      && o.option == if isDraft then "非公開（下書き）" else "公開"
  {
    assert IntToString(1) == "1" && IntToString(2) == "2" by {
      assert NatToString(1) == [DigitChar(1)];
      assert NatToString(2) == [DigitChar(2)];
    }
  }

  /**
    Submission succeeds exactly when the criteria can be paired and both dates
    convert; the record then has its fourteen fields, with the features decoded
    from the keys and the status chosen by `isDraft`.
  */
  lemma SubmitParamsSpec(form: JobForm, isDraft: bool, criterias: Option<seq<RecruitingCriteria>>,
                         toApiDate: string -> Option<string>)
    ensures var slots := form.recruitingCriterias.GetOr([]);
      SubmitParams(form, isDraft, criterias, toApiDate).Some? <==>
        (forall k | 0 <= k < |slots| && slots[k].Some? :: criterias.Some? && k < |criterias.value|)
        && toApiDate(form.publicDateStart.GetOr("")).Some? && toApiDate(form.publicDateEnd.GetOr("")).Some?
    ensures var p := SubmitParams(form, isDraft, criterias, toApiDate);
      p.Some? ==>
        |p.value| == 14
        && p.value[2] == ("features", Arr(Nums(SubmitFeatures(form.features))))
        && p.value[13] == ("public_status", Num(Int(PublicStatus(isDraft))))
  {
    RcDataSpec(form.recruitingCriterias.GetOr([]), criterias);
  }

  /** `formData.companyImages?.map(i => getImageFile(i.image)) || []`. */
  function CompanyUploads(rows: Option<seq<CompanyImageForm>>): (r: seq<Upload>)
    ensures |r| == |rows.GetOr([])|
  {
    var xs := rows.GetOr([]);
    seq(|xs|, i requires 0 <= i < |xs| => Helper.ImageFile(xs[i].image))
  }

  /** `formData.staffImages?.map(i => getImageFile(i.photo)) || []`. */
  function StaffUploads(rows: Option<seq<StaffImageForm>>): (r: seq<Upload>)
    ensures |r| == |rows.GetOr([])|
  {
    var xs := rows.GetOr([]);
    seq(|xs|, i requires 0 <= i < |xs| => Helper.ImageFile(xs[i].photo))
  }

  /** The request `submitJob` hands to the API for a built parameter record. */
  function JobRequest(param: seq<(string, Value)>, form: JobForm, preLoadId: Option<int>, thumbnail: Upload): Api.Request
  {
    var body := Api.JobEntries(param, Helper.ImageFile(thumbnail), CompanyUploads(form.companyImages),
                               StaffUploads(form.staffImages));
    if preLoadId.Some? then Api.Request("PUT", "/jobs/" + IntToString(preLoadId.value), body)
    else Api.Request("POST", "/jobs", body)
  }

  /**
    `submitJob(formData, isDraft)`: updates the loaded job when there is one and
    creates a job otherwise, or throws (`None`). The thumbnail sent is the watched
    field's value, reduced to its file name.
  */
  method SubmitJob(form: JobForm, isDraft: bool, preLoadId: Option<int>, criterias: Option<seq<RecruitingCriteria>>,
                   thumbnail: Upload, toApiDate: string -> Option<string>) returns (request: Option<Api.Request>)
    ensures request.None? <==> SubmitParams(form, isDraft, criterias, toApiDate).None?
    ensures request.Some? ==> request.value == JobRequest(SubmitParams(form, isDraft, criterias, toApiDate).value,
                                                          form, preLoadId, thumbnail)
    ensures request.Some? ==> (request.value.verb == "PUT" <==> preLoadId.Some?)
  {
    var param := SubmitParams(form, isDraft, criterias, toApiDate);
    if param.None? {
      return None;
    }
    var companyImages := CompanyUploads(form.companyImages);
    var staffImages := StaffUploads(form.staffImages);
    var sent: Api.Request;
    if preLoadId.Some? {
      sent := Api.UpdateJobById(preLoadId.value, param.value, Helper.ImageFile(thumbnail), companyImages, staffImages);
    } else {
      sent := Api.CreateNewJob(param.value, Helper.ImageFile(thumbnail), companyImages, staffImages);
    }
    request := Some(sent);
  }

  // ---------------------------------------------------------------- the schema

  /** A company image row: an accepted image and a description. */
  predicate CompanyRowValid(row: CompanyImageForm)
  {
    ImageValid(row.image) && row.description != ""
  }

  /** A staff row: an accepted photo, both names and a position; career and introduction are free. */
  predicate StaffRowValid(row: StaffImageForm)
  {
    ImageValid(row.photo) && row.firstName != "" && row.lastName != "" && row.position != ""
  }

  /**
    The whole schema. Required strings must be non-empty. An absent array is not
    checked, but a present feature list needs at least one non-empty key. The
    dates are read with `parse`, and the support URL is checked with `isUrl`.
  */
  predicate SchemaValid(form: JobForm, parse: string -> Option<int>, isUrl: string -> bool)
  {
    form.company != "" && form.title != "" && ThumbnailValid(form.thumbnail)
    && (form.features.None?
        || (|form.features.value| >= 1 && forall i | 0 <= i < |form.features.value| :: form.features.value[i] != ""))
    && form.introduction != ""
    && OtherWebsitesValid(form.otherWebsites)
    && (form.companyImages.None?
        || forall i | 0 <= i < |form.companyImages.value| :: CompanyRowValid(form.companyImages.value[i]))
    && (form.staffImages.None?
        || forall i | 0 <= i < |form.staffImages.value| :: StaffRowValid(form.staffImages.value[i]))
    && form.salary != ""
    && DateValid(form.publicDateStart, parse)
    && PublicDateEndValid(form.publicDateStart, form.publicDateEnd, parse)
    && form.applyType != ""
    && SupportUrlValid(form.applyType, form.supportUrl, isUrl)
    && form.status != ""
  }

  /**
    The publish button, `handleSubmit(onSubmit)`. A form that fails the schema
    sends nothing. Otherwise it is submitted as public, exactly as `submitJob`
    would submit it.
  */
  method OnClickPublish(form: JobForm, preLoadId: Option<int>, criterias: Option<seq<RecruitingCriteria>>,
                        thumbnail: Upload, toApiDate: string -> Option<string>,
                        parse: string -> Option<int>, isUrl: string -> bool) returns (request: Option<Api.Request>)
    ensures !SchemaValid(form, parse, isUrl) ==> request.None?
    ensures SchemaValid(form, parse, isUrl) ==>
      (request.None? <==> SubmitParams(form, false, criterias, toApiDate).None?)
    ensures request.Some? ==>
      SchemaValid(form, parse, isUrl)
      && request.value == JobRequest(SubmitParams(form, false, criterias, toApiDate).value, form, preLoadId, thumbnail)
  {
    if !SchemaValid(form, parse, isUrl) {
      return None;
    }
    request := SubmitJob(form, false, preLoadId, criterias, thumbnail, toApiDate);
  }

  /**
    The draft button submits the current values as private without running the
    schema. A draft is therefore sent whenever the criteria pair up and the dates
    convert, even if the form would fail validation.
  */
  method OnClickSaveDraft(form: JobForm, preLoadId: Option<int>, criterias: Option<seq<RecruitingCriteria>>,
                          thumbnail: Upload, toApiDate: string -> Option<string>) returns (request: Option<Api.Request>)
    ensures request.None? <==> SubmitParams(form, true, criterias, toApiDate).None?
    ensures request.Some? ==>
      request.value == JobRequest(SubmitParams(form, true, criterias, toApiDate).value, form, preLoadId, thumbnail)
      && SubmitParams(form, true, criterias, toApiDate).value[13] == ("public_status", Num(Int(2)))
  {
    request := SubmitJob(form, true, preLoadId, criterias, thumbnail, toApiDate);
    SubmitParamsSpec(form, true, criterias, toApiDate);
  }

  // ---------------------------------------------------------------- presetForm

  function CompanyRow(c: CompanyInfo, base: string): CompanyImageForm
  {
    CompanyImageForm(UploadOfUrl(Helper.FirstFullImage(c.images, base)), c.description)
  }

  function StaffRow(s: StaffInfo, base: string): StaffImageForm
  {
    StaffImageForm(UploadOfUrl(Helper.FirstFullImage(s.images, base)), s.firstName, s.lastName, s.post, s.career,
                   s.introductionText)
  }

  /**
    The values `presetForm` resets the form to, given the filled criteria slots;
    `None` when a stored date does not convert (`fromApiDate`), which throws.
  */
  function PresetValues(job: JobDetail, slots: seq<Option<string>>, base: string,
                        fromApiDate: string -> Option<string>): Option<JobForm>
  {
    var start := fromApiDate(job.dateStart);
    var end := fromApiDate(job.dateEnd);
    if start.None? || end.None? then None
    else
      var company := seq(|job.workplaceIntroductions|, i requires 0 <= i < |job.workplaceIntroductions| =>
        CompanyRow(job.workplaceIntroductions[i], base));
      var staff := seq(|job.staffInfos|, i requires 0 <= i < |job.staffInfos| => StaffRow(job.staffInfos[i], base));
      Some(JobForm(IntToString(job.employerId), job.jobTitle, UploadOfUrl(Helper.FirstFullImage(job.jobThumbnails, base)),
                   Some(PresetFeatureKeys(job.features)), job.leadStatement, job.anotherUrlText, Some(company),
                   Some(staff), job.pay, Some(slots), Some(start.value), Some(end.value), IntToString(job.templateId),
                   job.publicFormUrl, IntToString(job.publicStatus)))
  }

  /**
    `presetForm(preLoad)`: sorts the job's criteria in place, fills the slots, and
    yields the form values.
  */
  method PresetForm(job: JobDetail, criterias: array<RecruitingCriteria>, current: Option<seq<Option<string>>>,
                    base: string, fromApiDate: string -> Option<string>) returns (form: Option<JobForm>)
    modifies criterias
    ensures Sorting.SortedBy(criterias[..], Api.DisplayOrder)
    ensures multiset(criterias[..]) == multiset(old(criterias[..]))
    ensures form == PresetValues(job, PresetSlots(current.GetOr([]), criterias[..]), base, fromApiDate)
  {
    var slots := PresetCriteria(current, criterias);
    form := PresetValues(job, slots, base, fromApiDate);
  }

  /**
    Loading a job and submitting the form unchanged sends back the job's employer,
    its template and its feature ids, in order.
  */
  lemma PresetSubmitRoundTrip(job: JobDetail, slots: seq<Option<string>>, base: string,
                              fromApiDate: string -> Option<string>, form: JobForm, isDraft: bool,
                              criterias: Option<seq<RecruitingCriteria>>, toApiDate: string -> Option<string>,
                              p: seq<(string, Value)>)
    requires PresetValues(job, slots, base, fromApiDate) == Some(form)
    requires SubmitParams(form, isDraft, criterias, toApiDate) == Some(p)
    requires forall i | 0 <= i < |job.features| ::
      job.features[i].id >= 0 && (job.features[i].parentId.None? || job.features[i].parentId.value >= 0)
    ensures |p| == 14
    ensures p[0] == ("employer_id", Num(Int(job.employerId)))
    ensures p[2] == ("features", Arr(Nums(FeatureIds(job.features))))
    ensures p[12] == ("job_detail_page_template_id", Num(Int(job.templateId)))
  {
    PresetValuesFields(job, slots, base, fromApiDate);
    SubmitParamsFields(form, isDraft, criterias, toApiDate);
    ToNumberOfIntToString(job.employerId);
    ToNumberOfIntToString(job.templateId);
    PresetFeaturesRoundTrip(job.features);
  }

  /**
    A loaded company image row whose stored images end in a plain file name is
    sent back as that file name.
  */
  lemma PresetSubmitCompanyImage(job: JobDetail, slots: seq<Option<string>>, base: string,
                                 fromApiDate: string -> Option<string>, form: JobForm, i: nat)
    requires PresetValues(job, slots, base, fromApiDate) == Some(form)
    requires i < |job.workplaceIntroductions|
    requires var imgs := job.workplaceIntroductions[i].images;
      imgs.Some? && imgs.value != [] && '/' !in imgs.value[|imgs.value| - 1].imageName
    ensures var imgs := job.workplaceIntroductions[i].images.value;
      i < |CompanyUploads(form.companyImages)|
      && CompanyUploads(form.companyImages)[i] == Path(imgs[|imgs| - 1].imageName)
  {
    PresetValuesFields(job, slots, base, fromApiDate);
    var imgs := job.workplaceIntroductions[i].images.value;
    assert CompanyUploads(form.companyImages)[i] == Helper.ImageFile(CompanyRow(job.workplaceIntroductions[i], base).image);
    Helper.ImageFileOfFullImage(imgs, base);
  }

  lemma PresetValuesFields(job: JobDetail, slots: seq<Option<string>>, base: string, fromApiDate: string -> Option<string>)
    requires PresetValues(job, slots, base, fromApiDate).Some?
    ensures var form := PresetValues(job, slots, base, fromApiDate).value;
      form.company == IntToString(job.employerId) && form.applyType == IntToString(job.templateId)
      && form.features == Some(PresetFeatureKeys(job.features))
      && form.companyImages.Some? && |form.companyImages.value| == |job.workplaceIntroductions|
      && forall i | 0 <= i < |job.workplaceIntroductions| ::
           form.companyImages.value[i] == CompanyRow(job.workplaceIntroductions[i], base)
  {
  }

  lemma SubmitParamsFields(form: JobForm, isDraft: bool, criterias: Option<seq<RecruitingCriteria>>,
                           toApiDate: string -> Option<string>)
    requires SubmitParams(form, isDraft, criterias, toApiDate).Some?
    ensures var p := SubmitParams(form, isDraft, criterias, toApiDate).value;
      |p| == 14 && p[0] == ("employer_id", Num(ToNumber(form.company)))
      && p[2] == ("features", Arr(Nums(SubmitFeatures(form.features))))
      && p[12] == ("job_detail_page_template_id", Num(ToNumber(form.applyType)))
  {
  }
}
