/** The navigation menu of the single-page app (`frontend/src/App.tsx`):
    which menu entry is highlighted for the current location path. */
module AppMenu {
  import opened Common

  datatype MenuKey = SearchKey | FaqKey | AdminKey

  /** `getSelectedKey`: `/` is the search page, exactly `/faq` is the FAQ,
      any path beginning with `/admin` is the admin area, anything else falls
      back to search. */
  function SelectedKey(path: string): (key: MenuKey)
    ensures key == FaqKey <==> path == "/faq"
    ensures key == AdminKey <==> IsPrefix("/admin", path)
    ensures key == SearchKey <==> path != "/faq" && !IsPrefix("/admin", path)
  {
    if path == "/" then SearchKey
    else if path == "/faq" then FaqKey
    else if IsPrefix("/admin", path) then AdminKey
    else SearchKey
  }

  /** The root, a trailing slash or a sub-path under `/faq`, and an
      unrelated path all select search; `/admin/login` and `/adminX` both
      select admin. */
  lemma SelectedKeyExamples()
    ensures SelectedKey("/") == SearchKey
    ensures SelectedKey("/faq/") == SearchKey && SelectedKey("/faq/x") == SearchKey
    ensures SelectedKey("/admin/login") == AdminKey && SelectedKey("/adminX") == AdminKey
    ensures SelectedKey("/login") == SearchKey
  {
    assert "/faq/" != "/faq" by { assert |"/faq/"| != |"/faq"|; }
    assert "/faq/x"[..6][1] != "/admin"[1];
    assert "/login"[..6][1] != "/admin"[1];
  }
}
