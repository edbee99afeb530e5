/** The bookmark reminder: shown once, five seconds after mounting, until it has been dismissed. */
module BookmarkPopup {

  const SeenKey := "hasSeenBookmarkPopup"

  /** The stored flag is truthy: present and not the empty string. */
  predicate Seen(store: map<string, string>)
  {
    SeenKey in store && store[SeenKey] != ""
  }

  class Popup {
    /** The browser's storage. */
    var store: map<string, string>
    var isVisible: bool
    /** Whether the five-second timer is pending. */
    var scheduled: bool

    /** A pending timer means the flag was not set when the popup mounted; it is never pending
        while the popup shows. */
    ghost predicate Valid()
      reads this
    {
      scheduled ==> !isVisible
    }

    /** Mounting: hidden, and the timer is set only when the flag is not there. */
    constructor (s: map<string, string>)
      ensures store == s && !isVisible
      ensures scheduled <==> !Seen(s)
      ensures Valid()
    {
      store := s;
      isVisible := false;
      scheduled := !Seen(s);
    }

    /** The timer firing shows the popup. */
    method TimerFires()
      requires Valid() && scheduled
      modifies this`isVisible, this`scheduled
      ensures Valid() && isVisible && !scheduled
    {
      scheduled := false;
      isVisible := true;
    }

    /** Unmounting clears a pending timer. */
    method Unmount()
      modifies this`scheduled
      ensures !scheduled
    {
      scheduled := false;
    }

    /** The close button: hidden again, and the flag is stored as 'true'; no other key moves. */
    method Dismiss()
      requires Valid() && isVisible
      modifies this`isVisible, this`store
      ensures Valid() && !isVisible
      ensures store == old(store)[SeenKey := "true"] && Seen(store)
    {
      isVisible := false;
      store := store[SeenKey := "true"];
    }
  }

  /** After a dismissal, mounting again over the same storage never schedules the popup. */
  method RemountAfterDismiss(p: Popup) returns (q: Popup)
    requires p.Valid() && p.isVisible
    modifies p
    ensures !q.scheduled && !q.isVisible && Seen(q.store)
  {
    p.Dismiss();
    q := new Popup(p.store);
  }
}
