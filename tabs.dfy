/**
 * The editor's tab toggle, `switchTab` (app.js:83-113). The DOM is reduced
 * to what the handler reads and writes: which nav item carries `active`,
 * which section is not `hidden`, and whether the editor panel is open.
 * A tab id whose section or nav element is missing makes `getElementById`
 * return null, and the handler throws a TypeError part-way through.
 */
module Tabs {
  import opened Wrappers

  type TabId = string

  /** The part of the page the handler changes. */
  datatype View = View(active: Option<TabId>, shown: Option<TabId>, editorOpen: bool)

  /** The page after a click, and whether the handler threw. */
  datatype Click = Click(view: View, threw: bool)

  /** The page the editor should be in: the panel is open exactly when one
      tab is active, and the section shown is the active tab's. */
  predicate Consistent(v: View) {
    (v.editorOpen <==> v.active.Some?) && v.shown == v.active
  }

  /** The rule `switchTab(id)` follows, given the ids that have a section
      element and those that have a nav element. */
  function Switch(v: View, id: TabId, sections: set<TabId>, navs: set<TabId>): (r: Click)
    ensures v.active == Some(id) && v.editorOpen ==> r == Click(View(None, None, false), false)
    ensures !(v.active == Some(id) && v.editorOpen) && id in sections && id in navs ==>
      r == Click(View(Some(id), Some(id), true), false)
    ensures !(v.active == Some(id) && v.editorOpen) && !(id in sections && id in navs) ==>
      r.threw && r.view.active == None && r.view.editorOpen == v.editorOpen
    ensures !(v.active == Some(id) && v.editorOpen) && id !in sections ==> r.view.shown == None
    ensures !(v.active == Some(id) && v.editorOpen) && id in sections && id !in navs ==>
      r.threw && r.view.shown == Some(id)
  {
    var clickedSame := v.active == Some(id);
    if clickedSame && v.editorOpen then Click(View(None, None, false), false)
    else if id !in sections then Click(View(None, None, v.editorOpen), true)
    else if id !in navs then Click(View(None, Some(id), v.editorOpen), true)
    else Click(View(Some(id), Some(id), true), false)
  }

  /** A click on a tab that exists leaves the page consistent, from any
      page, consistent or not. */
  lemma SwitchMakesConsistent(v: View, id: TabId, sections: set<TabId>, navs: set<TabId>)
    requires id in sections && id in navs
    ensures Consistent(Switch(v, id, sections, navs).view)
    ensures !Switch(v, id, sections, navs).threw
  {
  }

  /** From the first click on, clicking the same tab again toggles the
      editor: open after one click means closed after the next and the
      other way round. */
  lemma SecondClickToggles(v: View, id: TabId, sections: set<TabId>, navs: set<TabId>)
    requires id in sections && id in navs
    ensures var w := Switch(v, id, sections, navs).view;
            Switch(w, id, sections, navs).view.editorOpen == !w.editorOpen
  {
  }

  /** A click on a tab with no section element, while the editor is open on
      another tab, throws with no tab active and the panel still open. */
  lemma MissingSectionBreaksConsistency(v: View, id: TabId, sections: set<TabId>, navs: set<TabId>)
    requires v.editorOpen && v.active != Some(id) && id !in sections
    ensures Switch(v, id, sections, navs).threw
    ensures !Consistent(Switch(v, id, sections, navs).view)
  {
  }

  class TabBar {
    /** Ids that have a `section-<id>` element. */
    const sections: set<TabId>
    /** Ids that have a `nav-<id>` element. */
    const navs: set<TabId>
    /** The nav item carrying `active`, if any. */
    var active: Option<TabId>
    /** The section without `hidden`, if any. */
    var shown: Option<TabId>
    /** `isEditorOpen`, mirrored by the panel's `open` class. */
    var isEditorOpen: bool

    function Current(): View
      reads this
    {
      View(active, shown, isEditorOpen)
    }

    /** The page as loaded, with `let isEditorOpen = false`. */
    constructor (sections: set<TabId>, navs: set<TabId>, active: Option<TabId>, shown: Option<TabId>)
      requires active.Some? ==> active.value in navs
      ensures this.sections == sections && this.navs == navs
      ensures Current() == View(active, shown, false)
    {
      this.sections := sections;
      this.navs := navs;
      this.active := active;
      this.shown := shown;
      isEditorOpen := false;
    }

    /** `switchTab(id)`. */
    method SwitchTab(id: TabId) returns (threw: bool)
      modifies this`active, this`shown, this`isEditorOpen
      ensures Click(Current(), threw) == Switch(old(Current()), id, sections, navs)
    {
      var clickedSame := active == Some(id);
      active, shown := None, None;
      if clickedSame && isEditorOpen {
        isEditorOpen := false;
        threw := false;
      } else if id !in sections {
        threw := true;
      } else {
        shown := Some(id);
        if id !in navs {
          threw := true;
        } else {
          active := Some(id);
          isEditorOpen := true;
          threw := false;
        }
      }
    }

    /** Start-up: open the "personal" tab if its section exists. */
    method OpenInitialTab() returns (threw: bool)
      requires !isEditorOpen
      modifies this`active, this`shown, this`isEditorOpen
      ensures "personal" in sections && "personal" in navs ==>
        Current() == View(Some("personal"), Some("personal"), true) && !threw
      ensures "personal" in sections ==> Click(Current(), threw) == Switch(old(Current()), "personal", sections, navs)
      ensures "personal" !in sections ==> Current() == old(Current()) && !threw
    {
      threw := false;
      if "personal" in sections {
        threw := SwitchTab("personal");
      }
    }
  }
}
