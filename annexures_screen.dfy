/**
 * The string and index rules of the annexure viewer: the Drive file id and download
 * link, the embedded viewer URL, the subtitle, the counter and the prev/next buttons.
 */
module AnnexuresScreen {
  import opened Wrappers
  import opened Strings
  import opened Annexures

  const DriveFilePrefix := "https://drive.google.com/file/d/"
  const ViewerPrefix := "https://docs.google.com/gview?embedded=true&url="
  const DriveDownloadPrefix := "https://drive.google.com/uc?export=download&id="

  predicate NoSlash(id: string) {
    forall i | 0 <= i < |id| :: id[i] != '/'
  }

  /** The Drive file prefix ends in "/d/" and holds no earlier "/d/". */
  lemma DriveFilePrefixShape()
    ensures |DriveFilePrefix| == 32 && DriveFilePrefix[29..] == "/d/"
    ensures forall j | 0 <= j < 29 ::
      DriveFilePrefix[j] != '/' || DriveFilePrefix[j + 1] != 'd' || DriveFilePrefix[j + 2] != '/'
  {
    var host, path := "https://drive.google.com", "/file/d/";
    assert DriveFilePrefix == host + path;
    assert forall j | 0 <= j < 24 :: DriveFilePrefix[j] == host[j];
    assert forall j | 0 <= j < 8 :: DriveFilePrefix[24 + j] == path[j];
    assert forall j | 0 <= j < 22 :: host[j] != '/' || host[j + 1] != 'd' || host[j + 2] != '/';
  }

  /** The first "/d/" of a Drive file link ends the fixed prefix. */
  lemma DriveLinkFirstD(id: string, rest: string)
    ensures var url := DriveFilePrefix + id + rest;
            SubstringAfter(url, "/d/") == id + rest
  {
    var url := DriveFilePrefix + id + rest;
    DriveFilePrefixShape();
    assert forall i | 0 <= i < 32 :: url[i] == DriveFilePrefix[i];
    assert url[29..32] == "/d/";
    forall j: nat | j < 29
      ensures !OccursAt(url, "/d/", j)
    {
      assert url[j..j + 3][0] == url[j] && url[j..j + 3][1] == url[j + 1] && url[j..j + 3][2] == url[j + 2];
    }
    FirstOccurrence(url, "/d/", 29);
    assert url[32..] == id + rest;
  }

  /** The id the download button extracts, as the screen writes it. */
  function FileIdAsWritten(fileUrl: string): (fileId: string)
    ensures |fileId| <= |fileUrl|
  {
    SubstringBefore(SubstringAfter(fileUrl, "/d/"), "/preview")
  }

  /** The id of a Drive file link: the path segment after "/d/". */
  function FileId(fileUrl: string): (fileId: string)
    ensures |fileId| <= |fileUrl|
    ensures Contains(SubstringAfter(fileUrl, "/d/"), "/") ==> NoSlash(fileId)
  {
    var afterD := SubstringAfter(fileUrl, "/d/");
    var r := SubstringBefore(afterD, "/");
    if Contains(afterD, "/") then
      assert forall j: nat | j < |r| :: !OccursAt(afterD, "/", j);
      assert forall i | 0 <= i < |r| :: r[i] == afterD[i] && !OccursAt(afterD, "/", i);
      r
    else r
  }

  /** The link the download button opens for a file id. */
  function DownloadUrl(fileId: string): (url: string)
    ensures |url| == |fileId| + 37
    ensures url[..32] == DriveFilePrefix && url[|url| - 5..] == "/view"
    ensures url[32..|url| - 5] == fileId
  {
    DriveFilePrefix + fileId + "/view"
  }

  /** The file id of a Drive link is its segment after "/d/", whatever follows the next "/". */
  lemma FileIdOfDriveLink(id: string, rest: string)
    requires NoSlash(id)
    ensures FileId(DriveFilePrefix + id + "/" + rest) == id
  {
    var s := id + "/" + rest;
    DriveLinkFirstD(id, "/" + rest);
    assert DriveFilePrefix + id + "/" + rest == DriveFilePrefix + id + ("/" + rest);
    assert s == id + ("/" + rest);
    assert s[|id|..|id| + 1] == "/";
    NoOccurrenceWithoutFirstChar(s, "/", |id|);
    FirstOccurrence(s, "/", |id|);
    assert s[..|id|] == id;
  }

  /** Round trip: the download link of an id gives the id back. */
  lemma FileIdOfDownloadUrl(id: string)
    requires NoSlash(id)
    ensures FileId(DownloadUrl(id)) == id
    ensures DownloadUrl(FileId(DownloadUrl(id))) == DownloadUrl(id)
  {
    assert DownloadUrl(id) == DriveFilePrefix + id + "/" + "view";
    FileIdOfDriveLink(id, "view");
  }

  /** The "/preview" links the screen's code expects are read correctly as written. */
  lemma AsWrittenReadsPreviewLinks(id: string)
    requires NoSlash(id)
    ensures FileIdAsWritten(DriveFilePrefix + id + "/preview") == id
  {
    var s := id + "/preview";
    DriveLinkFirstD(id, "/preview");
    assert s[|id|..|id| + 8] == "/preview";
    NoOccurrenceWithoutFirstChar(s, "/preview", |id|);
    FirstOccurrence(s, "/preview", |id|);
    assert s[..|id|] == id;
  }

  /**
   * Every listed annexure has a "/view" link, for which the code as written keeps
   * "/view" in the id, so the download link ends in "/view/view" and names no file.
   */
  lemma AsWrittenKeepsViewSuffix(id: string)
    requires NoSlash(id)
    ensures FileIdAsWritten(DriveFilePrefix + id + "/view") == id + "/view"
    ensures DownloadUrl(FileIdAsWritten(DriveFilePrefix + id + "/view")) == DriveFilePrefix + id + "/view/view"
    ensures DownloadUrl(FileIdAsWritten(DriveFilePrefix + id + "/view")) != DriveFilePrefix + id + "/view"
  {
    var s := id + "/view";
    DriveLinkFirstD(id, "/view");
    forall j: nat
      ensures !OccursAt(s, "/preview", j)
    {
      if j + 8 <= |s| {
        assert s[j..j + 8][0] == s[j];
        assert j < |id|;
        assert s[j] == id[j];
      }
    }
    assert !Contains(s, "/preview");
    var u := DownloadUrl(id + "/view");
    assert u == DriveFilePrefix + id + "/view/view";
    assert |u| != |DriveFilePrefix + id + "/view"|;
  }

  /** The embedded viewer's URL for a Drive document id (the same in `factory` and `update`). */
  function ViewerUrl(docId: string): (url: string)
    ensures |url| == |ViewerPrefix| + |DriveDownloadPrefix| + |docId|
    ensures url[..|ViewerPrefix|] == ViewerPrefix
    ensures url[|ViewerPrefix|..|ViewerPrefix| + |DriveDownloadPrefix|] == DriveDownloadPrefix
    ensures url[|ViewerPrefix| + |DriveDownloadPrefix|..] == docId
  {
    ViewerPrefix + DriveDownloadPrefix + docId
  }

  /** In the fixed part of the viewer URL, "&i" appears only at its very end. */
  lemma ViewerFixedPartIdKey()
    ensures var fixed := ViewerPrefix + DriveDownloadPrefix;
            && |fixed| == 95 && fixed[91..] == "&id="
            && forall j | 0 <= j < 91 :: fixed[j] != '&' || fixed[j + 1] != 'i'
  {
    var v := "https://docs.google.com/gview?embedded=true";
    var d := "https://drive.google.com/uc?export=download";
    assert forall j | 0 <= j < |v| :: v[j] != '&';
    assert forall j | 0 <= j < |d| :: d[j] != '&';
    assert ViewerPrefix == v + "&url=";
    assert DriveDownloadPrefix == d + "&id=";
    var fixed := ViewerPrefix + DriveDownloadPrefix;
    forall j | 0 <= j < 91
      ensures fixed[j] != '&' || fixed[j + 1] != 'i'
    {
      if j < 43 {
        assert fixed[j] == v[j];
      } else if j == 43 {
        assert fixed[j + 1] == 'u';
      } else if j < 48 {
        assert fixed[j] == "&url="[j - 43];
      } else {
        assert fixed[j] == d[j - 48];
      }
    }
  }

  /** The document id is everything after the first "&id=" of the viewer URL. */
  lemma ViewerUrlNamesDocument(docId: string)
    ensures SubstringAfter(ViewerUrl(docId), "&id=") == docId
  {
    var fixed := ViewerPrefix + DriveDownloadPrefix;
    var url := fixed + docId;
    ViewerFixedPartIdKey();
    assert url[91..95] == "&id=";
    forall j: nat | j < 91
      ensures !OccursAt(url, "&id=", j)
    {
      assert url[j] == fixed[j] && url[j + 1] == fixed[j + 1];
      assert url[j..j + 4][0] == url[j] && url[j..j + 4][1] == url[j + 1];
    }
    FirstOccurrence(url, "&id=", 91);
    assert url[95..] == docId;
  }

  /** The subtitle under a title: present exactly when the annexure has a code. */
  function Subtitle(annexureCode: string): (subtitle: Option<string>)
    ensures subtitle.Some? <==> annexureCode != []
    ensures subtitle.Some? ==> |subtitle.value| == |annexureCode| + 13
    ensures subtitle.Some? ==> subtitle.value[11..11 + |annexureCode|] == annexureCode
  {
    if annexureCode != [] then Some("(Annexure \"" + annexureCode + "\")") else None
  }

  predicate ShowPreviousButton(currentIndex: int) {
    currentIndex > 0
  }

  predicate ShowNextButton(currentIndex: int, totalDocuments: int) {
    currentIndex < totalDocuments - 1
  }

  /** A button is shown exactly when pressing it moves the viewer. */
  lemma ButtonsMatchNavigation(s: AnnexuresUiState)
    requires IndexInRange(s)
    ensures ShowPreviousButton(s.currentDocIndex) <==> Navigated(s, "prev") != s
    ensures ShowNextButton(s.currentDocIndex, |s.annexures|) <==> Navigated(s, "next") != s
  {
  }

  /** The "n/total" counter overlay. */
  function CounterText(currentIndex: int, totalDocuments: int): (text: string)
    ensures 0 <= currentIndex + 1 && 0 <= totalDocuments ==>
              text == NatToString(currentIndex + 1) + "/" + NatToString(totalDocuments)
  {
    IntToString(currentIndex + 1) + "/" + IntToString(totalDocuments)
  }

  /** The counter reads back as the one-based position and the total. */
  lemma CounterTextReadsBack(currentIndex: int, totalDocuments: int)
    requires -1 <= currentIndex && 0 <= totalDocuments
    ensures var text := CounterText(currentIndex, totalDocuments);
            && AllDigits(SubstringBefore(text, "/")) && AllDigits(SubstringAfter(text, "/"))
            && DigitsValue(SubstringBefore(text, "/")) == currentIndex + 1
            && DigitsValue(SubstringAfter(text, "/")) == totalDocuments
  {
    var a := NatToString(currentIndex + 1);
    var b := NatToString(totalDocuments);
    var text := a + "/" + b;
    assert text[|a|..|a| + 1] == "/";
    NoOccurrenceWithoutFirstChar(text, "/", |a|);
    FirstOccurrence(text, "/", |a|);
    assert text[..|a|] == a;
    assert text[|a| + 1..] == b;
    DigitsValueOfNatToString(currentIndex + 1);
    DigitsValueOfNatToString(totalDocuments);
  }
}
