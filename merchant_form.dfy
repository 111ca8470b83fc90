/**
 * The merchant create/edit form (src/pages/Merchantform.tsx): the phone
 * number rule, the logo checks made before an upload, the upload list the
 * form keeps, and the submit handler that sends the form to the store.
 */
module MerchantForm {
  import opened Wrappers
  import opened JsValues
  import opened Types
  import opened Api
  import opened MerchantService
  import opened MerchantStore
  import opened PublicCard

  // ---------------------------------------------------------------------------
  // The phone rule /^(\+221)?[0-9]{9}$/
  // ---------------------------------------------------------------------------

  /** The fragment of regular expressions the form's pattern uses. */
  datatype Pattern =
    | Empty
    | Char(c: char)
    | AnyDigit                        // [0-9]
    | Then(first: Pattern, next: Pattern)
    | Optional(p: Pattern)            // (p)?

  /** `p{n}`: `n` copies of `p` in a row. */
  function Repeat(p: Pattern, n: nat): Pattern
    decreases n
  {
    if n == 0 then Empty else Then(p, Repeat(p, n - 1))
  }

  /** The positions at which a match of `p` that starts at position `i` of `s` can end. */
  function Ends(p: Pattern, s: string, i: nat): set<nat>
  {
    match p
    case Empty => {i}
    case Char(c) => if i < |s| && s[i] == c then {i + 1} else {}
    case AnyDigit => if i < |s| && IsDigit(s[i]) then {i + 1} else {}
    case Then(a, b) => set j, k | j in Ends(a, s, i) && k in Ends(b, s, j) :: k
    case Optional(q) => {i} + Ends(q, s, i)
  }

  /** A pattern anchored with `^` and `$` matches when some match spans the whole string. */
  predicate Matches(p: Pattern, s: string) {
    |s| in Ends(p, s, 0)
  }

  const Prefix221: Pattern := Then(Char('+'), Then(Char('2'), Then(Char('2'), Char('1'))))

  /** `(\+221)?[0-9]{9}` */
  const PhonePattern: Pattern := Then(Optional(Prefix221), Repeat(AnyDigit, 9))

  const PhoneMessage := "Numéro invalide (9 chiffres)"

  /** Whether the phone field passes its pattern rule. */
  predicate PhoneAccepted(s: string) {
    Matches(PhonePattern, s)
  }

  /** The characters from position `i` up to `j` exist and are all ASCII digits. */
  predicate DigitsBetween(s: string, i: nat, j: nat) {
    i <= j <= |s| && forall k :: i <= k < j ==> IsDigit(s[k])
  }

  lemma ThenSingle(a: Pattern, b: Pattern, s: string, i: nat, j: nat)
    requires Ends(a, s, i) == {j}
    ensures Ends(Then(a, b), s, i) == Ends(b, s, j)
  {
  }

  lemma ThenNone(a: Pattern, b: Pattern, s: string, i: nat)
    requires Ends(a, s, i) == {}
    ensures Ends(Then(a, b), s, i) == {}
  {
  }

  lemma ThenPair(a: Pattern, b: Pattern, s: string, i: nat, j: nat, k: nat)
    requires Ends(a, s, i) == {j, k}
    ensures Ends(Then(a, b), s, i) == Ends(b, s, j) + Ends(b, s, k)
  {
  }

  /** `[0-9]{n}` matches from `i` exactly when the next `n` characters are digits. */
  lemma {:induction false} DigitRunEnds(n: nat, s: string, i: nat)
    requires i <= |s|
    ensures Ends(Repeat(AnyDigit, n), s, i) == if DigitsBetween(s, i, i + n) then {i + n} else {}
    decreases n
  {
    if n > 0 {
      assert Repeat(AnyDigit, n) == Then(AnyDigit, Repeat(AnyDigit, n - 1));
      if i < |s| && IsDigit(s[i]) {
        ThenSingle(AnyDigit, Repeat(AnyDigit, n - 1), s, i, i + 1);
        DigitRunEnds(n - 1, s, i + 1);
        assert DigitsBetween(s, i, i + n) <==> DigitsBetween(s, i + 1, i + n);
      } else {
        ThenNone(AnyDigit, Repeat(AnyDigit, n - 1), s, i);
        assert !DigitsBetween(s, i, i + n);
      }
    }
  }

  /** The optional country code matches "+221" at the start, or nothing. */
  lemma PrefixEnds(s: string)
    ensures Ends(Optional(Prefix221), s, 0) == if StartsWith(s, "+221") then {0, 4} else {0}
  {
    var t3 := Then(Char('2'), Char('1'));
    var t2 := Then(Char('2'), t3);
    if |s| >= 1 && s[0] == '+' {
      ThenSingle(Char('+'), t2, s, 0, 1);
      if |s| >= 2 && s[1] == '2' {
        ThenSingle(Char('2'), t3, s, 1, 2);
        if |s| >= 3 && s[2] == '2' {
          ThenSingle(Char('2'), Char('1'), s, 2, 3);
          if |s| >= 4 {
            assert s[..4] == ['+', '2', '2', s[3]];
          }
        } else {
          ThenNone(Char('2'), Char('1'), s, 2);
        }
      } else {
        ThenNone(Char('2'), t3, s, 1);
      }
    } else {
      ThenNone(Char('+'), t2, s, 0);
    }
  }

  /**
   * The phone rule accepts exactly nine ASCII digits, optionally preceded by
   * the Senegalese country code "+221".
   */
  lemma PhoneRule(s: string)
    ensures PhoneAccepted(s) <==>
      (|s| == 9 && DigitsBetween(s, 0, 9)) || (|s| == 13 && StartsWith(s, "+221") && DigitsBetween(s, 4, 13))
  {
    PrefixEnds(s);
    DigitRunEnds(9, s, 0);
    var digits := Repeat(AnyDigit, 9);
    if StartsWith(s, "+221") {
      DigitRunEnds(9, s, 4);
      ThenPair(Optional(Prefix221), digits, s, 0, 0, 4);
    } else {
      ThenSingle(Optional(Prefix221), digits, s, 0, 0);
    }
  }

  /** An accepted number has 9 or 13 characters. */
  lemma PhoneLength(s: string)
    requires PhoneAccepted(s)
    ensures |s| == 9 || |s| == 13
  {
    PhoneRule(s);
  }

  /** A local number and its "+221" form are both accepted. */
  lemma PhoneForms(d: string)
    requires |d| == 9 && AllDigits(d)
    ensures PhoneAccepted(d) && PhoneAccepted("+221" + d)
  {
    PhoneRule(d);
    var t := "+221" + d;
    assert t[..4] == "+221";
    assert forall k :: 4 <= k < 13 ==> t[k] == d[k - 4];
    PhoneRule(t);
  }

  lemma {:induction false} StripPlusKeeps(s: string)
    requires '+' !in s
    ensures StripPlus(s) == s
    decreases |s|
  {
    if |s| > 0 {
      assert s[0] in s;
      assert forall c :: c in s[1..] ==> c in s;
      StripPlusKeeps(s[1..]);
    }
  }

  /**
   * Either accepted form of a number gives the public card's WhatsApp link
   * the same target: "221" followed by the nine local digits.
   */
  lemma AcceptedPhoneWhatsApp(s: string)
    requires PhoneAccepted(s)
    ensures |s| >= 9 && FormatWhatsApp(s) == "221" + s[|s| - 9..]
  {
    PhoneRule(s);
    if |s| == 13 {
      var d := s[4..];
      assert s == "+221" + d;
      assert forall k :: 0 <= k < |d| ==> d[k] == s[k + 4];
      assert '+' !in d;
      StripPlusAppend("+221", d);
      assert StripPlus("+221") == "221" by {
        assert "+221"[1..] == "221";
        assert "221"[1..] == "21";
        assert "21"[1..] == "1";
        assert "1"[1..] == "";
      }
      StripPlusKeeps(d);
    } else {
      assert !StartsWith(s, "+") by { assert IsDigit(s[0]); }
    }
  }

  // ---------------------------------------------------------------------------
  // Logo upload
  // ---------------------------------------------------------------------------

  /** 2 MB: `file.size / 1024 / 1024 < 2` holds exactly below this many bytes. */
  const MaxLogoBytes: nat := 2 * 1024 * 1024

  datatype UploadError = NotImage | TooLarge {
    function Message(): string {
      match this
      case NotImage => "Vous ne pouvez télécharger que des images"
      case TooLarge => "L'image doit être inférieure à 2MB"
    }
  }

  /** What `beforeUpload` decides: whether antd starts its own upload, and the error it reports. */
  datatype UploadCheck = UploadCheck(startUpload: bool, error: Option<UploadError>)

  /** A logo the form means to accept: an image under 2 MB. */
  predicate AcceptableLogo(f: File) {
    StartsWith(f.mimeType, "image/") && f.size < MaxLogoBytes
  }

  /**
   * `beforeUpload`: never lets antd upload on its own; the type check comes
   * before the size check.
   */
  function BeforeUpload(f: File): (r: UploadCheck)
    ensures !r.startUpload
    ensures r.error.None? <==> AcceptableLogo(f)
    ensures r.error == Some(NotImage) <==> !StartsWith(f.mimeType, "image/")
    ensures r.error == Some(TooLarge) <==> StartsWith(f.mimeType, "image/") && f.size >= MaxLogoBytes
  {
    if !StartsWith(f.mimeType, "image/") then UploadCheck(false, Some(NotImage))
    else if f.size >= MaxLogoBytes then UploadCheck(false, Some(TooLarge))
    else UploadCheck(false, None)
  }

  /** An entry of antd's upload list; `originFileObj` is the browser file behind it. */
  datatype UploadItem = UploadItem(uid: string, name: string, own: File, originFileObj: Option<File>)

  /** The argument of `onChange`: the file that changed and the whole new list. */
  datatype UploadInfo = UploadInfo(file: UploadItem, fileList: seq<UploadItem>)

  /** The form's upload state: the list shown and the logo kept for submission. */
  datatype LogoState = LogoState(fileList: seq<UploadItem>, logoFile: Option<File>)

  const NoLogo := LogoState([], None)

  /** `info.file.originFileObj || info.file` */
  function FileOf(item: UploadItem): File {
    item.originFileObj.GetOr(item.own)
  }

  /** `list.slice(-1)`: the last element, or nothing for an empty list. */
  function KeepLast<T>(list: seq<T>): (r: seq<T>)
    ensures |r| <= 1
    ensures |list| == 0 <==> r == []
    ensures |list| > 0 ==> r == [list[|list| - 1]]
  {
    if |list| == 0 then [] else list[|list| - 1..]
  }

  /** `handleUploadChange`: keep only the newest list entry, and take the changed file as the logo. */
  function UploadChange(st: LogoState, info: UploadInfo): (r: LogoState)
    ensures |r.fileList| <= 1
    ensures |info.fileList| > 0 ==> r.fileList == [info.fileList[|info.fileList| - 1]]
    ensures |info.fileList| == 0 ==> r.fileList == []
    ensures r.logoFile == Some(FileOf(info.file))
  {
    LogoState(KeepLast(info.fileList), Some(FileOf(info.file)))
  }

  /**
   * Picking a file as the form is written: `beforeUpload` returns `false`,
   * which stops antd's own upload but still lists the file and fires
   * `onChange` with it. Both see the browser file behind the list entry.
   */
  function PickFile(st: LogoState, item: UploadItem): (r: (UploadCheck, LogoState))
    ensures r.0 == BeforeUpload(FileOf(item))
    ensures r.1 == UploadChange(st, UploadInfo(item, st.fileList + [item]))
  {
    (BeforeUpload(FileOf(item)), UploadChange(st, UploadInfo(item, st.fileList + [item])))
  }

  /** As written, the picked file becomes the logo whatever `beforeUpload` reported. */
  lemma PickFileIgnoresCheck(st: LogoState, item: UploadItem)
    ensures PickFile(st, item).1.logoFile == Some(FileOf(item))
    ensures PickFile(st, item).1.fileList == [item]
  {
  }

  /** A PDF is refused with an error message and still becomes the logo that is submitted. */
  lemma RejectedFileBecomesLogo()
    ensures var pdf := File("menu.pdf", "application/pdf", 1000);
      var r := PickFile(NoLogo, UploadItem("rc-1", "menu.pdf", pdf, Some(pdf)));
      r.0.error == Some(NotImage) && r.1.logoFile == Some(pdf) && !AcceptableLogo(pdf)
  {
    var pdf := File("menu.pdf", "application/pdf", 1000);
    assert !StartsWith(pdf.mimeType, "image/") by {
      assert pdf.mimeType[..6] == "applic";
    }
  }

  /**
   * Picking a file as evidently intended: a file that fails the checks is
   * left out of the list (`Upload.LIST_IGNORE`), so nothing changes.
   */
  function PickCheckedFile(st: LogoState, item: UploadItem): (r: LogoState)
    ensures BeforeUpload(FileOf(item)).error.Some? ==> r == st
    ensures BeforeUpload(FileOf(item)).error.None? ==> r == PickFile(st, item).1
  {
    if BeforeUpload(FileOf(item)).error.Some? then st
    else UploadChange(st, UploadInfo(item, st.fileList + [item]))
  }

  /** The logo kept for submission, if any, is an image under 2 MB. */
  predicate LogoChecked(st: LogoState) {
    st.logoFile.Some? ==> AcceptableLogo(st.logoFile.value)
  }

  /** With the corrected pick, every logo the form submits passes the checks. */
  lemma {:induction false} CheckedPicksKeepLogoChecked(items: seq<UploadItem>)
    ensures LogoChecked(PickAll(NoLogo, items))
    decreases |items|
  {
    if |items| > 0 {
      CheckedPicksKeepLogoChecked(items[..|items| - 1]);
    }
  }

  /** Picking several files in turn with the corrected check. */
  function PickAll(st: LogoState, items: seq<UploadItem>): LogoState
    decreases |items|
  {
    if |items| == 0 then st
    else PickCheckedFile(PickAll(st, items[..|items| - 1]), items[|items| - 1])
  }

  // ---------------------------------------------------------------------------
  // Submit
  // ---------------------------------------------------------------------------

  /** A form value: a plain field value, or the colour object antd's ColorPicker yields. */
  datatype InputValue = Value(v: FieldValue) | ColourObject(hex: string)

  const ColourKeys: set<string> := {"primaryColor", "secondaryColor"}

  /** Only the two colour fields use a ColorPicker. */
  predicate PickersOnColours(values: seq<(string, InputValue)>) {
    forall i :: 0 <= i < |values| && values[i].1.ColourObject? ==> values[i].0 in ColourKeys
  }

  /** `v?.toHexString ? v.toHexString() : v` */
  function Extract(v: InputValue): FieldValue {
    match v
    case Value(x) => x
    case ColourObject(hex) => Text(hex)
  }

  predicate HasKey(values: seq<(string, InputValue)>, key: string) {
    exists i :: 0 <= i < |values| && values[i].0 == key
  }

  /** The entries with every colour object replaced by its hex string. */
  function Lowered(values: seq<(string, InputValue)>): (r: seq<(string, FieldValue)>)
    ensures |r| == |values|
    ensures forall i :: 0 <= i < |values| ==> r[i] == (values[i].0, Extract(values[i].1))
  {
    seq(|values|, i requires 0 <= i < |values| => (values[i].0, Extract(values[i].1)))
  }

  /**
   * `{ ...values, primaryColor, secondaryColor }`: each colour entry keeps its
   * place with its hex string; a colour the form lacks is added as undefined.
   */
  function SubmittedData(values: seq<(string, InputValue)>): (r: seq<(string, FieldValue)>)
    requires PickersOnColours(values)
    ensures |values| <= |r| <= |values| + 2
    ensures r[..|values|] == Lowered(values)
    ensures forall i :: |values| <= i < |r| ==> r[i].0 in ColourKeys && r[i].1 == Undefined
  {
    Lowered(values)
      + (if HasKey(values, "primaryColor") then [] else [("primaryColor", Undefined)])
      + (if HasKey(values, "secondaryColor") then [] else [("secondaryColor", Undefined)])
  }

  /** The multipart body of a submitted form is that of its own entries, colours as hex strings. */
  lemma SubmittedFields(values: seq<(string, InputValue)>)
    requires PickersOnColours(values)
    ensures FormFields(SubmittedData(values)) == FormFields(Lowered(values))
  {
    var r := SubmittedData(values);
    var extra := r[|values|..];
    assert r == Lowered(values) + extra;
    FormFieldsAppend(Lowered(values), extra);
    assert FormFields(extra) == [] by {
      if |extra| == 1 {
        assert extra[1..] == [];
      } else if |extra| == 2 {
        assert extra[1..][1..] == [];
      }
    }
  }

  /** A colour chosen with the picker is sent as its hex string. */
  lemma PickedColourSent(values: seq<(string, InputValue)>, i: nat)
    requires PickersOnColours(values)
    requires i < |values| && values[i].1.ColourObject?
    ensures TextEntry(values[i].0, values[i].1.hex) in FormFields(SubmittedData(values))
  {
    SubmittedFields(values);
    var low := Lowered(values);
    assert low[i] == (values[i].0, Text(values[i].1.hex));
    FormFieldsExactly(low, values[i].0, values[i].1.hex);
  }

  /** Edit mode: the route carries a (non-empty) merchant id. */
  predicate EditMode(routeId: Option<string>) {
    TruthyString(routeId)
  }

  function Title(routeId: Option<string>): (t: string)
    ensures EditMode(routeId) <==> t == "Modifier le commerçant"
  {
    if EditMode(routeId) then "Modifier le commerçant" else "Nouveau commerçant"
  }

  const UpdatedNotice := Success("Commerçant modifié avec succès")
  const CreatedNotice := Success("Commerçant créé avec succès")
  const FailedNotice := Failure("Une erreur est survenue")

  /**
   * `onFinish`: in edit mode the form updates the merchant named by the
   * route, otherwise it creates one; on success it announces it and returns
   * to the list, on failure it only reports the error.
   */
  method OnFinish(store: MerchantStoreState, routeId: Option<string>, values: seq<(string, InputValue)>,
                  logo: LogoState, reply: Result<Merchant, ApiError>)
    returns (sent: Request, navigate: Option<string>, notice: Notice)
    requires PickersOnColours(values)
    modifies store
    ensures EditMode(routeId) ==> sent.verb == PUT && sent.path == "/merchants/" + routeId.value
    ensures !EditMode(routeId) ==> sent.verb == POST && sent.path == "/merchants"
    ensures sent.body == FormBody(FormFields(SubmittedData(values)) + LogoEntry(logo.logoFile))
    ensures navigate == Some("/merchants") <==> reply.Ok?
    ensures navigate.None? <==> reply.Err?
    ensures reply.Ok? ==> notice == (if EditMode(routeId) then UpdatedNotice else CreatedNotice)
    ensures reply.Err? ==> notice == FailedNotice
    ensures reply.Ok? && EditMode(routeId) ==>
      store.merchants == ReplaceById(old(store.merchants), routeId.value, reply.value)
    ensures reply.Ok? && !EditMode(routeId) ==>
      store.merchants == [reply.value] + old(store.merchants) && store.total == old(store.total) + 1
    ensures reply.Err? ==> store.merchants == old(store.merchants) && store.error.Some?
  {
    var data := SubmittedData(values);
    var ok: bool;
    if EditMode(routeId) {
      var outcome;
      sent, outcome := store.UpdateMerchant(routeId.value, data, logo.logoFile, reply);
      ok := outcome.Pass?;
      notice := if ok then UpdatedNotice else FailedNotice;
    } else {
      var result;
      sent, result := store.CreateMerchant(data, logo.logoFile, reply);
      ok := result.Ok?;
      notice := if ok then CreatedNotice else FailedNotice;
    }
    navigate := if ok then Some("/merchants") else None;
  }
}
