/** Certificates of authenticity. The legacy panel creates them (a
    verification link, the maker's latest recorded story or a default one)
    and appends them to the stored list; the certificates page loads that
    list, giving every certificate without a number the number "KH-" plus
    the last six characters of its id in upper case, and names downloads
    after the number. */
module Certificates {
  import opened Common
  import opened Recordings
  import opened Auth

  /** A stored certificate. Certificates created by the legacy panel carry
      no number; one is assigned when the list is loaded. */
  datatype Certification = Certification(
    id: string,
    productName: string,
    qrCode: string,
    timestamp: int,
    story: string,
    verified: bool,
    certificateNumber: Option<string>)

  const NumberPrefix := "KH-"

  /** `cert.certificateNumber || 'KH-' + cert.id.slice(-6).toUpperCase()`. */
  function CertificateNumber(c: Certification): (n: string)
    ensures c.certificateNumber.Some? && c.certificateNumber.value != "" ==> n == c.certificateNumber.value
    ensures c.certificateNumber.None? || c.certificateNumber == Some("") ==>
      && |n| == |NumberPrefix| + Min(6, |c.id|)
      && n[..3] == NumberPrefix
      && n[3..] == ToUpper(LastChars(c.id, 6))
    ensures n != ""
  {
    if c.certificateNumber.Some? && c.certificateNumber.value != "" then c.certificateNumber.value
    else NumberPrefix + ToUpper(LastChars(c.id, 6))
  }

  /** A certificate as the certificates page holds it: its number filled in
      and every other field as stored. */
  function Numbered(c: Certification): (r: Certification)
    ensures r.certificateNumber == Some(CertificateNumber(c))
    ensures r.(certificateNumber := c.certificateNumber) == c
  {
    c.(certificateNumber := Some(CertificateNumber(c)))
  }

  /** Loading the stored list: without a stored list the page keeps what
      it has; otherwise it holds the stored certificates, in their order,
      each numbered. */
  function LoadCertifications(saved: Option<seq<Certification>>, current: seq<Certification>): (r: seq<Certification>)
    ensures saved.None? ==> r == current
    ensures saved.Some? ==> |r| == |saved.value|
    ensures saved.Some? ==> forall i :: 0 <= i < |r| ==> r[i] == Numbered(saved.value[i])
  {
    match saved
    case None => current
    case Some(s) => seq(|s|, i requires 0 <= i < |s| => Numbered(s[i]))
  }

  /** Loading a loaded list again changes nothing: a number, once given,
      is kept. */
  lemma LoadIdempotent(saved: seq<Certification>, current: seq<Certification>)
    ensures var once := LoadCertifications(Some(saved), current);
      LoadCertifications(Some(once), current) == once
  {
    var once := LoadCertifications(Some(saved), current);
    var twice := LoadCertifications(Some(once), current);
    forall i | 0 <= i < |once|
      ensures twice[i] == once[i]
    {
      assert once[i].certificateNumber.value != "";
    }
  }

  /** `KalaHasta_Certificate_<number>.txt`. */
  function DownloadFileName(c: Certification): (name: string)
    ensures |name| == 22 + |CertificateNumber(c)| + 4
    ensures name[..22] == "KalaHasta_Certificate_"
    ensures name[22..|name| - 4] == CertificateNumber(c)
    ensures name[|name| - 4..] == ".txt"
  {
    var n := CertificateNumber(c);
    var name := "KalaHasta_Certificate_" + n + ".txt";
    assert name[22..|name| - 4] == n;
    name
  }

  /** A JavaScript template renders an absent value as "undefined". */
  function Shown(s: Option<string>): string
  {
    s.GetOr("undefined")
  }

  const VerifyUrl := "https://kalahasta.com/verify/"

  /** The verification link of a certificate made at time `now` for the
      user with the id. */
  function GenerateQRCode(userId: Option<string>, now: nat): (url: string)
    ensures |url| == |VerifyUrl| + |Shown(userId)| + 1 + |NatToString(now)|
    ensures url[..|VerifyUrl|] == VerifyUrl
    ensures var rest := url[|VerifyUrl|..];
      && rest[..|Shown(userId)|] == Shown(userId)
      && rest[|Shown(userId)|] == '/'
      && rest[|Shown(userId)| + 1..] == NatToString(now)
  {
    var rest := Shown(userId) + "/" + NatToString(now);
    assert rest[..|Shown(userId)|] == Shown(userId);
    assert rest[|Shown(userId)| + 1..] == NatToString(now);
    assert (VerifyUrl + rest)[|VerifyUrl|..] == rest;
    VerifyUrl + rest
  }

  /** The default story, naming the product, the maker and the craft. */
  function DefaultStory(productName: string, fullName: Option<string>, craft: Option<string>): string
  {
    "This authentic " + productName + " was created by " + Shown(fullName) + ", a master "
      + Shown(craft) + " artist. Each piece represents generations of traditional craftsmanship and cultural heritage."
  }

  /** The last recording exists and has a non-empty story. */
  predicate LatestHasStory(recordings: seq<Recording>)
  {
    recordings != [] && recordings[|recordings| - 1].story.Some? && recordings[|recordings| - 1].story.value != ""
  }

  /** `latestRecording?.story || default`: the story of the last recording
      when there is one and its story is non-empty, the default otherwise. */
  function StoryFor(recordings: seq<Recording>, productName: string, user: Option<User>): (story: string)
    ensures LatestHasStory(recordings) ==> story == recordings[|recordings| - 1].story.value
    ensures !LatestHasStory(recordings) ==>
      story == DefaultStory(productName,
        if user.Some? then Some(user.value.fullName) else None,
        if user.Some? then Some(user.value.primaryCraft) else None)
  {
    if LatestHasStory(recordings) then recordings[|recordings| - 1].story.value
    else DefaultStory(productName,
      if user.Some? then Some(user.value.fullName) else None,
      if user.Some? then Some(user.value.primaryCraft) else None)
  }

  function UserId(user: Option<User>): Option<string>
  {
    if user.Some? then Some(user.value.id) else None
  }

  /** The certificate created at time `now` for a product: verified, with no
      number yet, its id the time in digits. */
  function NewCertification(productName: string, user: Option<User>, recordings: seq<Recording>, now: nat): (c: Certification)
    ensures c.id == NatToString(now) && c.productName == productName && c.timestamp == now
    ensures c.qrCode == GenerateQRCode(UserId(user), now)
    ensures c.story == StoryFor(recordings, productName, user)
    ensures c.verified && c.certificateNumber.None?
  {
    Certification(NatToString(now), productName, GenerateQRCode(UserId(user), now), now,
                  StoryFor(recordings, productName, user), true, None)
  }

  /** Upper-casing leaves digits alone. */
  lemma ToUpperDigits(s: string)
    requires AllDigits(s)
    ensures ToUpper(s) == s
  {
  }

  /** A certificate created by the legacy panel is numbered, when the
      certificates page loads it, "KH-" and the last six digits of its
      creation time. */
  lemma CreatedCertificateNumber(productName: string, user: Option<User>, recordings: seq<Recording>, now: nat)
    ensures CertificateNumber(NewCertification(productName, user, recordings, now))
      == NumberPrefix + LastChars(NatToString(now), 6)
  {
    var c := NewCertification(productName, user, recordings, now);
    var id := NatToString(now);
    assert c.id == id && c.certificateNumber.None?;
    var tail := LastChars(id, 6);
    DigitsOfSuffix(id, |id| - |tail|);
    assert tail == id[|id| - |tail|..];
    ToUpperDigits(tail);
    assert CertificateNumber(c) == NumberPrefix + ToUpper(tail);
  }

  /** Every suffix of a string of digits is a string of digits. */
  lemma DigitsOfSuffix(s: string, k: nat)
    requires AllDigits(s) && k <= |s|
    ensures AllDigits(s[k..])
  {
    forall i | 0 <= i < |s[k..]| ensures IsDigit(s[k..][i]) {
      assert s[k..][i] == s[k + i];
    }
  }

  /** The legacy panel: the certificates, the stored list (None while the
      storage key is absent), whether the creation dialog is open and the
      product chosen in it. */
  class LegacyPanel {
    var certifications: seq<Certification>
    var saved: Option<seq<Certification>>
    var showCertificationModal: bool
    var selectedProduct: string

    constructor (stored: Option<seq<Certification>>)
      ensures certifications == stored.GetOr([]) && saved == stored
      ensures !showCertificationModal && selectedProduct == ""
    {
      certifications := stored.GetOr([]);
      saved := stored;
      showCertificationModal := false;
      selectedProduct := "";
    }

    method OpenDialog()
      modifies this
      ensures showCertificationModal
      ensures certifications == old(certifications) && saved == old(saved) && selectedProduct == old(selectedProduct)
    {
      showCertificationModal := true;
    }

    method SelectProduct(productName: string)
      modifies this
      ensures selectedProduct == productName
      ensures certifications == old(certifications) && saved == old(saved)
      ensures showCertificationModal == old(showCertificationModal)
    {
      selectedProduct := productName;
    }

    /** Appends the new certificate, stores the whole list, closes the
        dialog and clears the selection. */
    method CreateCertification(productName: string, user: Option<User>, recordings: seq<Recording>, now: nat)
      modifies this
      ensures certifications == old(certifications) + [NewCertification(productName, user, recordings, now)]
      ensures |certifications| == old(|certifications|) + 1
      ensures certifications[..old(|certifications|)] == old(certifications)
      ensures saved == Some(certifications)
      ensures !showCertificationModal && selectedProduct == ""
    {
      var certification := NewCertification(productName, user, recordings, now);
      certifications := certifications + [certification];
      saved := Some(certifications);
      showCertificationModal := false;
      selectedProduct := "";
    }

    /** The dialog's create button: it does nothing until a product is
        chosen, and otherwise certifies the chosen product. */
    method ConfirmCreate(user: Option<User>, recordings: seq<Recording>, now: nat)
      modifies this
      ensures old(selectedProduct) == "" ==> unchanged(this)
      ensures old(selectedProduct) != "" ==>
        && certifications == old(certifications) + [NewCertification(old(selectedProduct), user, recordings, now)]
        && saved == Some(certifications)
        && !showCertificationModal && selectedProduct == ""
    {
      if selectedProduct != "" {
        CreateCertification(selectedProduct, user, recordings, now);
      }
    }
  }
}
