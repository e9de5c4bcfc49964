/**
  The plugin's `AdminNotice` class. `add` writes a pending notice into one of four
  reserved transient slots. `initAdminNotices`, run once per admin page, prints
  the first pending slot (`transients`) and then the notices asked for by the
  request's query flags.

  The pure parts are functions: `Added` and `Rendered` say what `add` and
  `transients` do to the store and the page, the query-flag handlers map the
  query to zero or one fragment, and `PageLoad` composes them. The class
  `NoticeBoard` holds the transient store and the page output and is proved
  against those functions.
*/
module AdminNotice {
  import opened Wrappers
  import opened NoticeFormat
  import opened TransientStore

  /** What `add` stores: a `WP_Error` (code, message) pair for errors, the bare message for the other levels. */
  datatype Notice = ErrorNotice(code: int, message: string) | Plain(message: string)

  /** The reserved transient key of each level. */
  function SlotKey(l: Level): string
  {
    match l
    case Error => "lmfwc_notice_error"
    case Success => "lmfwc_notice_success"
    case Warning => "lmfwc_notice_warning"
    case Info => "lmfwc_notice_info"
  }

  /** The key the error branch of `transients` deletes; `add` never writes it. */
  const StrayErrorKey := "lmfwc_error"

  /** PHP truthiness of a fetched value: an object is always true; the strings "" and "0" are false. */
  predicate Truthy(n: Notice)
  {
    n.ErrorNotice? || (n.message != "" && n.message != "0")
  }

  /**
    Each slot holds what `transients` can print from it: the error slot a
    `WP_Error` or a falsy string (which the test skips), the other three slots
    strings. A truthy string in the error slot would make `transients` call
    `get_error_message` on a string, and a `WP_Error` in another slot would be
    printed as an object; PHP aborts on both. `add` writes only what is allowed.
  */
  predicate WellTyped(s: Store<Notice>)
  {
    forall l :: SlotKey(l) in s ==>
      if l == Error then s[SlotKey(l)].value.ErrorNotice? || !Truthy(s[SlotKey(l)].value)
      else s[SlotKey(l)].value.Plain?
  }

  /** The test `if ($x = get_transient(<slot of l>))` of `transients` succeeds at instant `now`. */
  predicate Pending(s: Store<Notice>, l: Level, now: int)
  {
    var v := Get(s, SlotKey(l), now);
    v.Some? && Truthy(v.value)
  }

  /** The text printed for a pending slot: `get_error_message()` of the error, the string itself otherwise. */
  function PendingText(s: Store<Notice>, l: Level, now: int): string
    requires Pending(s, l, now)
  {
    Get(s, SlotKey(l), now).value.message
  }

  /** `l` is pending and no level checked before it is. */
  predicate FirstPending(s: Store<Notice>, l: Level, now: int)
  {
    Pending(s, l, now) && forall k :: Rank(k) < Rank(l) ==> !Pending(s, k, now)
  }

  /** The value `add` stores for level `l`: `new \WP_Error($code, $message)` for errors, `$message` otherwise. */
  function Stored(l: Level, message: string, code: int): Notice
  {
    if l == Error then ErrorNotice(code, message) else Plain(message)
  }

  /**
    `AdminNotice::add($level, $message, $code = -1, $duration = 60)` called at
    instant `now`. A recognised level's slot reads back the stored notice for
    `duration` seconds, replacing whatever was pending there, and every other key
    is untouched; any other level string changes nothing.
  */
  function Added(s: Store<Notice>, now: int, level: string, message: string,
                 code: int := -1, duration: int := 60): (r: Store<Notice>)
    ensures WellTyped(s) ==> WellTyped(r)
    ensures ParseLevel(level).None? ==> r == s
    ensures forall l :: ParseLevel(level) == Some(l) ==>
      (forall t :: Get(r, SlotKey(l), t) == if t < now + duration then Some(Stored(l, message, code)) else None)
    ensures forall l, k :: ParseLevel(level) == Some(l) && k != SlotKey(l) ==>
      (k in r <==> k in s) && (k in s ==> r[k] == s[k])
  {
    match ParseLevel(level)
    case None => s
    case Some(l) => Set(s, SlotKey(l), Stored(l, message, code), duration, now)
  }

  /** The store after, and the fragments printed by, one step of the page. */
  datatype Step = Step(store: Store<Notice>, echoed: seq<string>)

  /**
    `transients()` at instant `now`. At most one fragment is printed: that of the
    first pending slot in the order error, success, warning, info, with the
    slot's class and text; if no slot is pending nothing is printed and the store
    is unchanged. A printed success, warning or info slot is deleted; after the
    error slot is printed only the key `lmfwc_error` is deleted, so the error
    notice itself stays pending.
  */
  function Rendered(s: Store<Notice>, now: int): (r: Step)
    requires WellTyped(s)
    ensures WellTyped(r.store)
    ensures |r.echoed| <= 1
    ensures r.echoed == [] <==> forall l :: !Pending(s, l, now)
    ensures r.echoed == [] ==> r.store == s
    ensures forall l :: FirstPending(s, l, now) ==> r.echoed == [Fragment(l, PendingText(s, l, now))]
    ensures FirstPending(s, Error, now) ==> r.store == Delete(s, StrayErrorKey)
    ensures forall l :: l != Error && FirstPending(s, l, now) ==> r.store == Delete(s, SlotKey(l))
  {
    if Pending(s, Error, now) then
      Step(Delete(s, StrayErrorKey), [Fragment(Error, PendingText(s, Error, now))])
    else if Pending(s, Success, now) then
      Step(Delete(s, SlotKey(Success)), [Fragment(Success, PendingText(s, Success, now))])
    else if Pending(s, Warning, now) then
      Step(Delete(s, SlotKey(Warning)), [Fragment(Warning, PendingText(s, Warning, now))])
    else if Pending(s, Info, now) then
      Step(Delete(s, SlotKey(Info)), [Fragment(Info, PendingText(s, Info, now))])
    else
      Step(s, [])
  }

  // ----- The query-flag handlers -----

  /** The request's query string, `$_GET`. */
  type Query = map<string, string>

  /** `isset($_GET[$key]) ? $_GET[$key] : <absent>`. */
  function Lookup(q: Query, key: string): Option<string>
  {
    if key in q then Some(q[key]) else None
  }

  const AddKeyFlag := "lmfwc_add_license_key"
  const ActivateKeyFlag := "lmfwc_activate_license_key"
  const DeleteKeyFlag := "lmfwc_delete_license_key"
  const NonceFlag := "lmfwc_nonce_status"
  const ImportFlag := "lmfwc_import_license_keys"

  const KeyAddedText := "Your license key has been added successfully."
  const KeyNotAddedText := "Something went wrong, your key was not added. Please try again."
  const KeyActivatedText := "Your license key has been activated successfully."
  const KeyNotDeactivatedText := "Something went wrong, your license key was not deactivate. Please try again."
  const InvalidNonceText := "Invalid nonce! Your action was not completed."
  const ImportFailedText := "Something went wrong, no keys were added. Please try again."

  function ImportedText(added: int): string
  {
    FormatInt(added) + " key(s) have been imported successfully."
  }

  function RejectedText(rejected: int): string
  {
    "Import failed. " + FormatInt(rejected) + " key(s) were not added."
  }

  function MixedText(added: int, rejected: int): string
  {
    FormatInt(added) + " key(s) have been imported and " + FormatInt(rejected) + " key(s) were not imported."
  }

  /**
    The shape shared by the add, activate and delete handlers: nothing when the
    flag is absent, otherwise one fragment, a success for `"true"` and an error
    for any other value.
  */
  function FlagNotice(flag: Option<string>, okText: string, failText: string): (r: seq<string>)
    ensures |r| <= 1
    ensures r == [] <==> flag.None?
  {
    match flag
    case None => []
    case Some(v) => if v == "true" then [Fragment(Success, okText)] else [Fragment(Error, failText)]
  }

  /** What the printed fragment of `FlagNotice` reads back as. */
  lemma FlagNoticeReads(flag: Option<string>, okText: string, failText: string)
    requires flag.Some?
    ensures Decode(FlagNotice(flag, okText, failText)[0])
         == Some(if flag.value == "true" then (Success, okText) else (Error, failText))
  {
    if flag.value == "true" {
      DecodeFragment(Success, okText);
    } else {
      DecodeFragment(Error, failText);
    }
  }

  /** `addLicenseKey()`: one fragment exactly when the add flag is set. */
  function AddLicenseKey(q: Query): (r: seq<string>)
    ensures |r| <= 1
    ensures r == [] <==> AddKeyFlag !in q
  {
    FlagNotice(Lookup(q, AddKeyFlag), KeyAddedText, KeyNotAddedText)
  }

  /** `activateLicenseKey()`: one fragment exactly when the activate flag is set. */
  function ActivateLicenseKey(q: Query): (r: seq<string>)
    ensures |r| <= 1
    ensures r == [] <==> ActivateKeyFlag !in q
  {
    FlagNotice(Lookup(q, ActivateKeyFlag), KeyActivatedText, KeyNotDeactivatedText)
  }

  /** `deleteLicenseKey()`: one fragment exactly when the delete flag is set, with the activate handler's texts. */
  function DeleteLicenseKey(q: Query): (r: seq<string>)
    ensures |r| <= 1
    ensures r == [] <==> DeleteKeyFlag !in q
  {
    FlagNotice(Lookup(q, DeleteKeyFlag), KeyActivatedText, KeyNotDeactivatedText)
  }

  /** `invalidNonce()`: one fragment exactly when the nonce flag says `"invalid"`. */
  function InvalidNonce(q: Query): (r: seq<string>)
    ensures |r| <= 1
    ensures r != [] <==> Lookup(q, NonceFlag) == Some("invalid")
  {
    if Lookup(q, NonceFlag) == Some("invalid") then [Fragment(Error, InvalidNonceText)] else []
  }

  /**
    `importLicenseKeys()`, which `initAdminNotices` does not call. `added` and
    `rejected` are `intval($_GET['added'])` and `intval($_GET['rejected'])`, or
    absent when those parameters are not set. The four flag values are tried in
    order; a value whose counts are missing prints nothing.
  */
  function ImportLicenseKeys(q: Query, added: Option<int>, rejected: Option<int>): (r: seq<string>)
    ensures |r| <= 1
    ensures r != [] <==>
      var flag := Lookup(q, ImportFlag);
      flag == Some("error") || (flag == Some("true") && added.Some?) ||
      (flag == Some("false") && rejected.Some?) || (flag == Some("mixed") && added.Some? && rejected.Some?)
    ensures Lookup(q, ImportFlag) == Some("error") ==> Decode(r[0]) == Some((Error, ImportFailedText))
    ensures Lookup(q, ImportFlag) == Some("true") && added.Some? ==>
      Decode(r[0]) == Some((Success, ImportedText(added.value)))
    ensures Lookup(q, ImportFlag) == Some("false") && rejected.Some? ==>
      Decode(r[0]) == Some((Error, RejectedText(rejected.value)))
    ensures Lookup(q, ImportFlag) == Some("mixed") && added.Some? && rejected.Some? ==>
      Decode(r[0]) == Some((Warning, MixedText(added.value, rejected.value)))
  {
    var flag := Lookup(q, ImportFlag);
    if flag == Some("error") then
      DecodeFragment(Error, ImportFailedText);
      [Fragment(Error, ImportFailedText)]
    else if flag == Some("true") && added.Some? then
      DecodeFragment(Success, ImportedText(added.value));
      [Fragment(Success, ImportedText(added.value))]
    else if flag == Some("false") && rejected.Some? then
      DecodeFragment(Error, RejectedText(rejected.value));
      [Fragment(Error, RejectedText(rejected.value))]
    else if flag == Some("mixed") && added.Some? && rejected.Some? then
      DecodeFragment(Warning, MixedText(added.value, rejected.value));
      [Fragment(Warning, MixedText(added.value, rejected.value))]
    else []
  }

  /**
    `initAdminNotices()` at instant `now` for query `q`: the transient notice
    first, then the add, activate, delete and nonce handlers, in that order. Only
    the transient step touches the store; at most five fragments are printed.
  */
  function PageLoad(s: Store<Notice>, q: Query, now: int): (r: Step)
    requires WellTyped(s)
    ensures WellTyped(r.store)
    ensures r.store == Rendered(s, now).store
    ensures |Rendered(s, now).echoed| <= |r.echoed| <= 5
    ensures r.echoed[..|Rendered(s, now).echoed|] == Rendered(s, now).echoed
    ensures r.echoed[|Rendered(s, now).echoed|..]
         == AddLicenseKey(q) + ActivateLicenseKey(q) + DeleteLicenseKey(q) + InvalidNonce(q)
  {
    var t := Rendered(s, now);
    var requested := AddLicenseKey(q) + ActivateLicenseKey(q) + DeleteLicenseKey(q) + InvalidNonce(q);
    assert (t.echoed + requested)[..|t.echoed|] == t.echoed;
    assert (t.echoed + requested)[|t.echoed|..] == requested;
    Step(t.store, t.echoed + requested)
  }

  lemma AppendedInOrder(o: seq<string>, t: seq<string>, a: seq<string>, b: seq<string>, c: seq<string>, d: seq<string>)
    ensures o + t + a + b + c + d == o + (t + (a + b + c + d))
  {
  }

  /**
    The notice board of one site: the transient store the plugin shares across
    requests, and the page output of the current request, to which `echo` appends.
  */
  class NoticeBoard {
    var store: Store<Notice>
    var output: seq<string>

    ghost predicate Valid()
      reads this
    {
      WellTyped(store)
    }

    /** A board over the site's current transients, before anything is printed. */
    constructor (initial: Store<Notice>)
      requires WellTyped(initial)
      ensures Valid()
      ensures store == initial && output == []
    {
      store := initial;
      output := [];
    }

    /** `AdminNotice::add($level, $message, $code, $duration)` at instant `now`. */
    method Add(now: int, level: string, message: string, code: int := -1, duration: int := 60)
      requires Valid()
      modifies this
      ensures Valid()
      ensures store == Added(old(store), now, level, message, code, duration)
      ensures output == old(output)
    {
      if level == "error" {
        store := Set(store, "lmfwc_notice_error", ErrorNotice(code, message), duration, now);
      } else if level == "success" {
        store := Set(store, "lmfwc_notice_success", Plain(message), duration, now);
      } else if level == "warning" {
        store := Set(store, "lmfwc_notice_warning", Plain(message), duration, now);
      } else if level == "info" {
        store := Set(store, "lmfwc_notice_info", Plain(message), duration, now);
      }
    }

    /** `transients()` at instant `now`. */
    method Transients(now: int)
      requires Valid()
      modifies this
      ensures Valid()
      ensures store == Rendered(old(store), now).store
      ensures output == old(output) + Rendered(old(store), now).echoed
    {
      var error := Get(store, "lmfwc_notice_error", now);
      if error.Some? && Truthy(error.value) {
        output := output + [Dismissible(CssClass(Error), error.value.message)];
        store := Delete(store, StrayErrorKey);
        return;
      }
      var success := Get(store, "lmfwc_notice_success", now);
      if success.Some? && Truthy(success.value) {
        output := output + [Dismissible(CssClass(Success), success.value.message)];
        store := Delete(store, "lmfwc_notice_success");
        return;
      }
      var warning := Get(store, "lmfwc_notice_warning", now);
      if warning.Some? && Truthy(warning.value) {
        output := output + [Dismissible(CssClass(Warning), warning.value.message)];
        store := Delete(store, "lmfwc_notice_warning");
        return;
      }
      var info := Get(store, "lmfwc_notice_info", now);
      if info.Some? && Truthy(info.value) {
        output := output + [Dismissible(CssClass(Info), info.value.message)];
        store := Delete(store, "lmfwc_notice_info");
      }
    }

    /** `initAdminNotices()` at instant `now` for the request's query `q`. */
    method InitAdminNotices(q: Query, now: int)
      requires Valid()
      modifies this
      ensures Valid()
      ensures store == PageLoad(old(store), q, now).store
      ensures output == old(output) + PageLoad(old(store), q, now).echoed
    {
      ghost var before, page := output, PageLoad(store, q, now);
      ghost var rendered := Rendered(store, now).echoed;
      Transients(now);
      var added := AddLicenseKey(q);
      output := output + added;
      var activated := ActivateLicenseKey(q);
      output := output + activated;
      var deleted := DeleteLicenseKey(q);
      output := output + deleted;
      var nonce := InvalidNonce(q);
      output := output + nonce;
      assert output == before + page.echoed by {
        AppendedInOrder(before, rendered, added, activated, deleted, nonce);
      }
    }
  }
}
