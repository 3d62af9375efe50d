/** Proof attachments: the accepted-type filter applied by the upload
    handler, removal by position, and the icon chosen for a file. */
module Attachments {
  import opened Text

  /** A selected browser `File`, as far as the form looks at it. */
  datatype FileInfo = FileInfo(name: string, mimeType: string, size: nat)

  /** The `validTypes` list of the upload handler. */
  const ValidTypes: seq<string> := ["image/*", "video/*", "audio/*", "application/pdf"]

  /** One entry of `validTypes` tested against a file type: a pattern ending in
      slash-star is a prefix test on the pattern without its last two characters,
      any other pattern an exact comparison. */
  predicate MatchesPattern(fileType: string, pattern: string) {
    if EndsWith(pattern, "/*") then StartsWith(fileType, pattern[..|pattern| - 2])
    else fileType == pattern
  }

  /** `patterns.some(type => ...)`: some entry of `patterns` matches. */
  predicate AnyMatches(fileType: string, patterns: seq<string>)
    decreases |patterns|
  {
    |patterns| > 0 && (MatchesPattern(fileType, patterns[0]) || AnyMatches(fileType, patterns[1..]))
  }

  /** `some` holds exactly when some entry of the list matches. */
  lemma {:induction false} AnyMatchesSome(fileType: string, patterns: seq<string>)
    ensures AnyMatches(fileType, patterns) <==>
      exists i :: 0 <= i < |patterns| && MatchesPattern(fileType, patterns[i])
    decreases |patterns|
  {
    if |patterns| > 0 {
      AnyMatchesSome(fileType, patterns[1..]);
      if AnyMatches(fileType, patterns[1..]) {
        var i :| 0 <= i < |patterns[1..]| && MatchesPattern(fileType, patterns[1..][i]);
        assert patterns[i + 1] == patterns[1..][i];
      }
      if exists i :: 0 <= i < |patterns| && MatchesPattern(fileType, patterns[i]) {
        var i :| 0 <= i < |patterns| && MatchesPattern(fileType, patterns[i]);
        if i > 0 { assert patterns[1..][i - 1] == patterns[i]; }
      }
    }
  }

  /** The filter callback of the upload handler. */
  predicate IsAcceptedType(fileType: string) {
    AnyMatches(fileType, ValidTypes)
  }

  /** The trailing slash-star is sliced off before the prefix test, so the prefixes are
      `image`, `video` and `audio` without a slash. */
  lemma AcceptedTypeExplicit(fileType: string)
    ensures IsAcceptedType(fileType) <==>
      || StartsWith(fileType, "image") || StartsWith(fileType, "video")
      || StartsWith(fileType, "audio") || fileType == "application/pdf"
  {
    assert ValidTypes[1..] == ["video/*", "audio/*", "application/pdf"];
    assert ValidTypes[2..] == ["audio/*", "application/pdf"];
    assert ValidTypes[3..] == ["application/pdf"];
    assert ValidTypes[4..] == [];
    assert "image/*"[..5] == "image" && "video/*"[..5] == "video" && "audio/*"[..5] == "audio";
    assert "image/*"[5..] == "/*" && "video/*"[5..] == "/*" && "audio/*"[5..] == "/*";
    assert !EndsWith("application/pdf", "/*") by {
      assert "application/pdf"[13..] == "df";
    }
  }

  /** `files.filter(...)` with the accepted-type test: every kept file is
      accepted, every accepted file is kept, and nothing is invented. */
  function KeepAccepted(files: seq<FileInfo>): (kept: seq<FileInfo>)
    ensures |kept| <= |files|
    ensures forall f :: f in kept ==> f in files && IsAcceptedType(f.mimeType)
    ensures forall f :: f in files && IsAcceptedType(f.mimeType) ==> f in kept
  {
    if files == [] then []
    else if IsAcceptedType(files[0].mimeType) then [files[0]] + KeepAccepted(files[1..])
    else KeepAccepted(files[1..])
  }

  /** Every file of the sequence has an accepted type. */
  predicate AllAccepted(files: seq<FileInfo>) {
    forall i :: 0 <= i < |files| ==> IsAcceptedType(files[i].mimeType)
  }

  /** Filtering a concatenation filters each part and keeps their order. */
  lemma {:induction false} KeepAcceptedAppend(a: seq<FileInfo>, b: seq<FileInfo>)
    ensures KeepAccepted(a + b) == KeepAccepted(a) + KeepAccepted(b)
  {
    if a == [] {
      assert a + b == b;
    } else {
      assert (a + b)[0] == a[0] && (a + b)[1..] == a[1..] + b;
      KeepAcceptedAppend(a[1..], b);
    }
  }

  /** Each file value is kept as many times as it occurs, when its type is
      accepted, and dropped otherwise: there is no deduplication. */
  lemma {:induction false} KeepAcceptedCount(files: seq<FileInfo>, f: FileInfo)
    ensures multiset(KeepAccepted(files))[f] ==
      if IsAcceptedType(f.mimeType) then multiset(files)[f] else 0
  {
    if files != [] {
      assert files == [files[0]] + files[1..];
      KeepAcceptedCount(files[1..], f);
    }
  }

  /** A sequence of accepted files passes the filter unchanged. */
  lemma {:induction false} KeepAcceptedOfAccepted(files: seq<FileInfo>)
    requires AllAccepted(files)
    ensures KeepAccepted(files) == files
  {
    if files != [] {
      KeepAcceptedOfAccepted(files[1..]);
    }
  }

  /** The filter's output has only accepted files. */
  lemma KeepAcceptedAllAccepted(files: seq<FileInfo>)
    ensures AllAccepted(KeepAccepted(files))
  {
    var kept := KeepAccepted(files);
    assert forall i :: 0 <= i < |kept| ==> kept[i] in kept;
  }

  /** `files.filter((_, i) => i !== index)` started at position `from`: the
      elements of `files`, which sit at positions `from`, `from + 1`, ...,
      except the one at position `index`. */
  function DropPosition<T>(files: seq<T>, index: int, from: int): (r: seq<T>)
    ensures |r| == if from <= index < from + |files| then |files| - 1 else |files|
    decreases |files|
  {
    if files == [] then []
    else (if from == index then [] else [files[0]]) + DropPosition(files[1..], index, from + 1)
  }

  /** A position filter that never meets its index returns its input. */
  lemma {:induction false} DropPositionMissed<T>(files: seq<T>, index: int, from: int)
    requires index < from || from + |files| <= index
    ensures DropPosition(files, index, from) == files
  {
    if files != [] {
      DropPositionMissed(files[1..], index, from + 1);
      assert [files[0]] + files[1..] == files;
    }
  }

  /** A position filter that meets its index drops exactly that element. */
  lemma {:induction false} DropPositionHit<T>(files: seq<T>, index: int, from: int)
    requires from <= index < from + |files|
    ensures DropPosition(files, index, from) == files[..index - from] + files[index - from + 1..]
  {
    var k := index - from;
    var rest := files[1..];
    if k == 0 {
      DropPositionMissed(rest, index, from + 1);
      assert DropPosition(files, index, from) == rest;
      assert files[..0] + files[1..] == rest;
    } else {
      DropPositionHit(rest, index, from + 1);
      assert DropPosition(files, index, from) == [files[0]] + (rest[..k - 1] + rest[k..]);
      assert files[..k] == [files[0]] + rest[..k - 1];
      assert files[k + 1..] == rest[k..];
    }
  }

  /** The index filter of `removeFile`: it removes exactly the element at a
      valid index, keeping the others in order, and leaves the list alone for
      any other index, negative ones included. */
  function RemoveAt<T>(files: seq<T>, index: int): (r: seq<T>)
    ensures r == if 0 <= index < |files| then files[..index] + files[index + 1..] else files
  {
    if 0 <= index < |files| then
      DropPositionHit(files, index, 0);
      DropPosition(files, index, 0)
    else
      DropPositionMissed(files, index, 0);
      DropPosition(files, index, 0)
  }

  /** Of `[a, b, c]`, index 1 removes `b` and index 5 removes nothing. */
  lemma RemoveAtExamples<T>(a: T, b: T, c: T)
    ensures RemoveAt([a, b, c], 1) == [a, c]
    ensures RemoveAt([a, b, c], 5) == [a, b, c]
    ensures RemoveAt([a, b, c], -1) == [a, b, c]
  {
    assert [a, b, c][..1] + [a, b, c][2..] == [a, c];
  }

  /** Removal never brings in a file with a rejected type. */
  lemma RemoveAtAllAccepted(files: seq<FileInfo>, index: int)
    requires AllAccepted(files)
    ensures AllAccepted(RemoveAt(files, index))
  {
    if 0 <= index < |files| {
      var r := RemoveAt(files, index);
      forall i | 0 <= i < |r| ensures IsAcceptedType(r[i].mimeType) {
        if i < index { assert r[i] == files[i]; } else { assert r[i] == files[i + 1]; }
      }
    }
  }

  /** The prefix of `s` of length `|p|` agrees with `p` at each position. */
  lemma StartsWithAt(s: string, p: string, i: nat)
    requires StartsWith(s, p) && i < |p|
    ensures s[i] == p[i]
  {
    assert s[..|p|][i] == s[i];
  }

  /** A file type starts with at most one of the three media prefixes, and
      the PDF type starts with none of them. */
  lemma PrefixesDisjoint(fileType: string)
    ensures StartsWith(fileType, "image/") ==> !StartsWith(fileType, "video/") && !StartsWith(fileType, "audio/")
    ensures StartsWith(fileType, "video/") ==> !StartsWith(fileType, "audio/")
    ensures fileType == "application/pdf" ==>
      !StartsWith(fileType, "image/") && !StartsWith(fileType, "video/") && !StartsWith(fileType, "audio/")
  {
    if StartsWith(fileType, "image/") { StartsWithAt(fileType, "image/", 0); }
    if StartsWith(fileType, "video/") { StartsWithAt(fileType, "video/", 0); }
    if StartsWith(fileType, "audio/") { StartsWithAt(fileType, "audio/", 1); }
  }

  /** The icon classes `getFileIcon` picks from. */
  datatype FileIcon = ImageIcon | VideoIcon | AudioIcon | PdfIcon | GenericIcon

  /** `getFileIcon`: the first matching test among the `image/`, `video/` and
      `audio/` prefixes (with the slash) and the exact PDF type. */
  function IconFor(fileType: string): (icon: FileIcon)
    ensures icon == ImageIcon <==> StartsWith(fileType, "image/")
    ensures icon == VideoIcon <==> StartsWith(fileType, "video/")
    ensures icon == AudioIcon <==> StartsWith(fileType, "audio/")
    ensures icon == PdfIcon <==> fileType == "application/pdf"
  {
    PrefixesDisjoint(fileType);
    if StartsWith(fileType, "image/") then ImageIcon
    else if StartsWith(fileType, "video/") then VideoIcon
    else if StartsWith(fileType, "audio/") then AudioIcon
    else if fileType == "application/pdf" then PdfIcon
    else GenericIcon
  }

  /** A file that gets a specific icon passes the upload filter. */
  lemma SpecificIconIsAccepted(fileType: string)
    requires IconFor(fileType) != GenericIcon
    ensures IsAcceptedType(fileType)
  {
    AcceptedTypeExplicit(fileType);
  }

  /** The converse fails: because the filter's prefixes carry no slash, a type
      such as `imagery/png` is accepted yet shown with the generic icon. */
  lemma AcceptedWithGenericIcon()
    ensures IsAcceptedType("imagery/png") && IconFor("imagery/png") == GenericIcon
  {
    var t := "imagery/png";
    AcceptedTypeExplicit(t);
    assert t[..5] == "image";
    if StartsWith(t, "image/") { StartsWithAt(t, "image/", 5); }
    if StartsWith(t, "video/") { StartsWithAt(t, "video/", 0); }
    if StartsWith(t, "audio/") { StartsWithAt(t, "audio/", 0); }
  }

  /** A type that differs from each media prefix at the given positions and
      is not the PDF type is rejected. */
  lemma RejectedType(fileType: string, i: nat, j: nat, k: nat)
    requires i < 5 && j < 5 && k < 5
    requires i < |fileType| ==> fileType[i] != "image"[i]
    requires j < |fileType| ==> fileType[j] != "video"[j]
    requires k < |fileType| ==> fileType[k] != "audio"[k]
    requires fileType != "application/pdf"
    ensures !IsAcceptedType(fileType)
  {
    AcceptedTypeExplicit(fileType);
    if StartsWith(fileType, "image") { StartsWithAt(fileType, "image", i); }
    if StartsWith(fileType, "video") { StartsWithAt(fileType, "video", j); }
    if StartsWith(fileType, "audio") { StartsWithAt(fileType, "audio", k); }
  }

  /** Sample types: `image/png` and `application/pdf` are accepted,
      `text/plain` and `application/zip` rejected. */
  lemma SampleTypes()
    ensures IsAcceptedType("image/png") && IsAcceptedType("application/pdf")
    ensures !IsAcceptedType("text/plain") && !IsAcceptedType("application/zip")
  {
    assert IsAcceptedType("image/png") by {
      AcceptedTypeExplicit("image/png");
      assert "image/png"[..5] == "image";
    }
    assert IsAcceptedType("application/pdf") by { AcceptedTypeExplicit("application/pdf"); }
    assert "text/plain"[0] == 't' && "application/zip"[0] == 'a' && "application/zip"[1] == 'p';
    assert "image"[0] == 'i' && "video"[0] == 'v' && "audio"[0] == 'a' && "audio"[1] == 'u';
    RejectedType("text/plain", 0, 0, 0);
    RejectedType("application/zip", 0, 0, 1);
  }

  /** The filter keeps `image/png` and `application/pdf` and drops
      `text/plain` and `application/zip`, in the original order. */
  lemma FilterMixedTypes(png: FileInfo, txt: FileInfo, pdf: FileInfo, zip: FileInfo)
    requires png.mimeType == "image/png" && txt.mimeType == "text/plain"
    requires pdf.mimeType == "application/pdf" && zip.mimeType == "application/zip"
    ensures KeepAccepted([png, txt, pdf, zip]) == [png, pdf]
  {
    SampleTypes();
    var all := [png, txt, pdf, zip];
    assert all[0] == png && all[1..] == [txt, pdf, zip];
    assert [txt, pdf, zip][0] == txt && [txt, pdf, zip][1..] == [pdf, zip];
    assert [pdf, zip][0] == pdf && [pdf, zip][1..] == [zip];
    assert [zip][0] == zip && [zip][1..] == [];
    assert KeepAccepted([zip]) == [];
    assert KeepAccepted([pdf, zip]) == [pdf];
    assert KeepAccepted([txt, pdf, zip]) == [pdf];
    assert KeepAccepted(all) == [png] + [pdf];
  }

}
