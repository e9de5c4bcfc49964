# AdminNotice: a Dafny model of the License Manager admin notices

This project models the `AdminNotice` class of the License Manager for WooCommerce
WordPress plugin (`includes/AdminNotice.php`). The class shows banners in the admin area.

- `add($level, $message, $code = -1, $duration = 60)` writes a pending notice into one of four reserved transients: `lmfwc_notice_error`, `lmfwc_notice_success`, `lmfwc_notice_warning`, `lmfwc_notice_info`. An error is stored as a `WP_Error` (code, message) pair. The other levels store the bare message. An unknown level is ignored.
- `initAdminNotices()` runs once per admin page. It first calls `transients()`, which prints the first pending slot in the order error, success, warning, info as a dismissible HTML fragment and then deletes a key. It then calls the query-flag handlers `addLicenseKey`, `activateLicenseKey`, `deleteLicenseKey` and `invalidNonce`, in that order. Each prints zero or one fragment, chosen from a fixed text by the value of its `$_GET` flag. `importLicenseKeys` is present but not called.

Files:

- `wrappers.dfy`: the `Option` type.
- `notice_format.dfy` (module `NoticeFormat`): the levels, the CSS-class constants, the two templates `MESSAGE_DISMISSIBLE` and `MESSAGE_PERMANENT`, and `Decode`, which reads a dismissible fragment back into its level and message. It also holds `%d` formatting (`FormatInt`) with its inverse `ParseInt`.
- `transient_store.dfy` (module `TransientStore`): the host's transient store as a map from key to value and integer expiry. `get_transient`, `set_transient` and `delete_transient` are the functions `Get`, `Set` and `Delete`. The clock is an explicit parameter `now`. An entry is present while `now` is before its expiry.
- `admin_notice.dfy` (module `AdminNotice`): the stored `Notice`, PHP truthiness, the specification functions (`Added`, `Rendered`, the handlers, `PageLoad`) and the class `NoticeBoard`. The class holds the transient store and the page output. Its methods `Add`, `Transients` and `InitAdminNotices` are proved against those functions and keep the invariant `Valid()`: the error slot holds a `WP_Error`, or a falsy string that the test skips, and the other slots hold strings.
- `admin_notice_properties.dfy` (module `AdminNoticeProperties`): lemmas that relate several calls, and two callers of `NoticeBoard`.

PHP truthiness is modelled as in the code's `if ($x = get_transient(...))` tests. A `WP_Error` is always true. A stored message `""` or `"0"` counts as absent, so it is neither printed nor deleted.

**Error notices are never consumed.** `add`'s doc comment (includes/AdminNotice.php:193) promises a notice "to be displayed on the next page reload". The success, warning and info branches of `transients` delete the key they print (lines 57, 65, 73). The error branch reads `lmfwc_notice_error` (line 42) but deletes `lmfwc_error` (line 49), a key `add` never writes (line 206). So a pending error notice is printed on every page until it expires, and it keeps hiding pending success, warning and info notices. The model follows the code:

- `Rendered` states that only `lmfwc_error` is deleted.
- `ErrorNoticeNeverConsumed` proves the repetition for any number of page loads.
- `DiskFullIsShownOnEveryPage` and `ErrorShownOnTwoPages` show it on the concrete "Disk full" scenario.

## Model

| member | source | states |
|---|---|---|
| `NoticeFormat.ParseLevel` | includes/AdminNotice.php:204-216 | the `switch` recognises exactly the four names "error", "success", "warning", "info", and each one maps back to its name; any other string selects no level |
| `NoticeFormat.Decode` | includes/AdminNotice.php:15 | a fragment that decodes to (level, message) is exactly the dismissible template filled with that level's class and that message |
| `NoticeFormat.DecodeFragment` | includes/AdminNotice.php:15-21 | the dismissible fragment of every level and message decodes back to that level and message, so the four classes are never confused |
| `NoticeFormat.NaturalDigits` | includes/AdminNotice.php:93-94 | the `%d` digits of a count: at least one decimal digit, and no leading zero unless the count is 0 |
| `NoticeFormat.DigitsValueOfNaturalDigits` | includes/AdminNotice.php:93-94 | the digits printed for a natural number read back to that number |
| `NoticeFormat.FormatInt` | includes/AdminNotice.php:93-94 | the `%d` text of any integer, negative ones included, parses back to that integer |
| `TransientStore.Set` | includes/AdminNotice.php:206-215 | after `set_transient` the key reads back the value for `duration` seconds and nothing after, replacing what was there; no other key changes |
| `TransientStore.Delete` | includes/AdminNotice.php:49-73 | after `delete_transient` the key reads back nothing at any instant; no other key changes |
| `AdminNotice.Added` | includes/AdminNotice.php:202-218 | `add` with a recognised level makes that level's slot read back the stored notice for `duration` seconds, overwriting any earlier one. The error slot stores (code, message) and the others store the message. Every other key is unchanged, an unknown level leaves the store unchanged, and the slot typing is preserved |
| `AdminNotice.Rendered` | includes/AdminNotice.php:40-75 | `transients` prints at most one fragment, and prints one iff some slot is truthy. The fragment belongs to the first truthy slot in the order error, success, warning, info, with its class and text. A printed success, warning or info slot is deleted; after printing the error slot only `lmfwc_error` is deleted. With nothing pending, the store is unchanged |
| `AdminNotice.FlagNotice` | includes/AdminNotice.php:122-136 | the shared shape of the add, activate and delete handlers: one fragment iff the flag is set |
| `AdminNotice.FlagNoticeReads` | includes/AdminNotice.php:124-135 | the printed fragment reads as (success, success text) for `"true"` and as (error, failure text) for any other value |
| `AdminNotice.AddLicenseKey` | includes/AdminNotice.php:119-137 | `addLicenseKey` prints at most one fragment, and prints one iff `lmfwc_add_license_key` is set |
| `AdminNotice.ActivateLicenseKey` | includes/AdminNotice.php:139-157 | `activateLicenseKey` prints at most one fragment, and prints one iff `lmfwc_activate_license_key` is set |
| `AdminNotice.DeleteLicenseKey` | includes/AdminNotice.php:159-177 | `deleteLicenseKey` prints at most one fragment, and prints one iff `lmfwc_delete_license_key` is set |
| `AdminNotice.InvalidNonce` | includes/AdminNotice.php:179-191 | `invalidNonce` prints at most one fragment, and prints one iff `lmfwc_nonce_status` is `"invalid"` |
| `AdminNotice.ImportLicenseKeys` | includes/AdminNotice.php:77-117 | `importLicenseKeys` prints at most one fragment, and prints one iff the flag is "error", or "true" with `added`, "false" with `rejected`, or "mixed" with both. The fragment reads as the error, success, error or warning text with the counts in `%d` form |
| `AdminNotice.PageLoad` | includes/AdminNotice.php:30-38 | `initAdminNotices` changes the store only through `transients` and prints at most five fragments: first what `transients` prints, then the add, activate, delete and nonce handlers' fragments, in that order |
| `AdminNotice.NoticeBoard.constructor` | includes/AdminNotice.php:26-28 | a board starts over the site's current transients with nothing printed, and the slot typing holds |
| `AdminNotice.NoticeBoard.Add` | includes/AdminNotice.php:202-218 | the store becomes `Added` of the old store, and the page output is untouched |
| `AdminNotice.NoticeBoard.Transients` | includes/AdminNotice.php:40-75 | the store and the output become what `Rendered` gives for the old store, with the fragment appended to the page |
| `AdminNotice.NoticeBoard.InitAdminNotices` | includes/AdminNotice.php:30-38 | the page gets the transient fragment, then the add, activate, delete and nonce fragments, in that order; the store becomes `PageLoad`'s |
| `AdminNoticeProperties.RenderedEach` | includes/AdminNotice.php:40-75 | successive page loads print at most one transient fragment each and keep the slot typing |
| `AdminNoticeProperties.SlotKeysDiffer` | includes/AdminNotice.php:42-49 | the four slot keys are distinct, and none of them is `lmfwc_error`, the key the error branch deletes |
| `AdminNoticeProperties.ErrorNoticeNeverConsumed` | includes/AdminNotice.php:42-49 | while the error slot is truthy, every page load prints the same error fragment again. The only key deleted is `lmfwc_error`, and all four slots keep their contents, so the lower levels stay hidden |
| `AdminNoticeProperties.DeleteKeepsOtherSlots` | includes/AdminNotice.php:57-73 | deleting one slot hides it and leaves what every other slot would print |
| `AdminNoticeProperties.RenderedTakesFirstWaiting` | includes/AdminNotice.php:50-74 | without a pending error, one page load prints the first waiting success, warning or info notice and removes exactly it from the waiting ones |
| `AdminNoticeProperties.NoticesDrainInPriorityOrder` | includes/AdminNotice.php:50-74 | without a pending error, three page loads print the pending success, warning and info notices once each, in that order, and then nothing is pending |
| `AdminNoticeProperties.AddedNoticeIsShown` | includes/AdminNotice.php:202-217 | a truthy notice added and not shadowed is printed, as that exact fragment, on the next page within its duration, and it decodes to the added level and message. A success, warning or info notice is gone afterwards; an error notice is not |
| `AdminNoticeProperties.FalsyNoticeStaysSilent` | includes/AdminNotice.php:50-66 | a success, warning or info message `""` or `"0"` is never printed and never deleted by a page load |
| `AdminNoticeProperties.ExpiredNoticeIsNotShown` | includes/AdminNotice.php:202-215 | a page load after the duration has elapsed prints what it would print if that slot were empty |
| `AdminNoticeProperties.AddDefaults` | includes/AdminNotice.php:202-206 | `add('error', $m)` stores code -1 and lasts 60 seconds |
| `AdminNoticeProperties.DiskFullIsShownOnEveryPage` | includes/AdminNotice.php:42-49 | after `add('error', 'Disk full', 500)`, two page loads both print the error fragment for "Disk full" |
| `AdminNoticeProperties.AddLicenseKeyReads` | includes/AdminNotice.php:124-135 | the add fragment reads as the "added successfully" success for `"true"` and as the "key was not added" error otherwise |
| `AdminNoticeProperties.ActivateLicenseKeyReads` | includes/AdminNotice.php:144-155 | the activate fragment reads as the "activated successfully" success for `"true"` and as the "was not deactivate" error otherwise |
| `AdminNoticeProperties.DeleteLicenseKeyReads` | includes/AdminNotice.php:164-175 | the delete fragment reads as the activate handler's texts, unchanged |
| `AdminNoticeProperties.InvalidNonceReads` | includes/AdminNotice.php:184-189 | the nonce fragment reads as the "Invalid nonce!" error |
| `AdminNoticeProperties.DeleteMirrorsActivate` | includes/AdminNotice.php:159-177 | for every flag value the delete handler prints exactly what the activate handler prints |
| `AdminNoticeProperties.ImportFlagIsIgnored` | includes/AdminNotice.php:30-38 | a page load prints and stores the same whatever `lmfwc_import_license_keys` holds, because `importLicenseKeys` is not called |
| `AdminNoticeProperties.RequestNoticesFollowInOrder` | includes/AdminNotice.php:34-37 | with all four flags set, the fragments after the transient one are the add, activate, delete and nonce fragments, in that order |
| `AdminNoticeProperties.PageLoadWithoutFlags` | includes/AdminNotice.php:30-38 | a page load whose query sets none of the flags prints and stores exactly what `transients` does |
| `AdminNoticeProperties.ErrorShownOnTwoPages` | includes/AdminNotice.php:30-49 | on a `NoticeBoard`, `add('error', …)` followed by two page loads prints the same error fragment on both pages |
| `AdminNoticeProperties.SuccessShownOnce` | includes/AdminNotice.php:30-57 | on a `NoticeBoard`, `add('success', …)` with a truthy message followed by two page loads prints the fragment on the first page and nothing on the second |

## Left out

- `license-manager.php` is not part of this model. It holds plugin bootstrap: the autoloader, a constant and a global singleton.
- The constructor's `add_action('admin_notices', …)` registration is not modelled. `InitAdminNotices` is called directly, once per page.
- `add` is a static PHP method that writes the site-wide transient store. Here it is a method of the `NoticeBoard` object that holds that store.
- WordPress transient internals are not modelled:
  - a duration of 0 meaning "never expires"; here it gives an entry that is already expired;
  - `get_transient` deleting an expired entry when it reads it; here an expired entry stays in the map and reads as absent;
  - object-cache back ends.
- `__()` translation is the identity on its literal text.
- `WP_Error` is a (code, message) pair. WordPress's rule that a `WP_Error` built with an empty code such as 0 holds no message is not modelled.
- `sprintf` is modelled only for the two templates and for `%d` of an integer. HTML escaping and the real output buffer are left out; `echo` appends to a sequence of strings.
- `ImportLicenseKeys` takes the `added` and `rejected` counts as integers that are already coerced. PHP's `intval` string coercion is not modelled.
- `$_GET` is a map from string to string. Array-valued query parameters are not modelled. PHP's loose `==` is string equality here, which is what it does for the non-numeric literals compared against.
- Messages passed to `add` are strings, as its doc comment declares. Other PHP values are not modelled.
- `Rendered`, `Transients` and `InitAdminNotices` require the slot typing `WellTyped`/`Valid()`: the error slot holds a `WP_Error` or a falsy string, and the other slots hold strings. PHP aborts on a truthy string in the error slot (`get_error_message` on a string) and on a printed `WP_Error` in another slot, and only `add` writes these keys. A `WP_Error` in a lower slot that a pending higher slot hides is excluded too, although PHP would never reach it.
- Concurrent requests racing on the shared transient store are outside this sequential model.
