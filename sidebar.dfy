/**
  The my-page sidebar of `src/components/Sidebar.tsx`: the menu table by role, the
  menu a signed-in user sees, when the sidebar renders at all, which entry is
  highlighted, and its navigation and logout handlers. Navigation goes through a
  prompt about unsaved changes that is not modelled here; the sidebar's requests
  are recorded in order instead.
*/
module Sidebar {
  import opened Wrappers
  import opened Text

  datatype MenuItem = MenuItem(caption: string, path: string, icon: string)

  const LogoutPath := "/logout"
  const Logout := MenuItem("ログアウト", LogoutPath, "logout.png")

  const JobSeekerMenu: seq<MenuItem> := [
    MenuItem("応募管理", "/mypage/application_mng", "application.png"),
    MenuItem("チャット管理", "/mypage/chat_mng", "chat.png"),
    MenuItem("気に入り", "/mypage/favourites", "star3.png"),
    MenuItem("プロフィール", "/mypage/profile", "man1.png"),
    Logout]

  const EmployerMenu: seq<MenuItem> := [
    MenuItem("求人管理", "/mypage/job_mng", "job.png"),
    MenuItem("応募管理", "/mypage/application_mng", "application.png"),
    MenuItem("応募者管理", "/mypage/applicant_mng", "applicants.png"),
    MenuItem("チャット管理", "/mypage/chat_mng", "chat.png"),
    MenuItem("プロフィール", "/mypage/profile", "man1.png"),
    Logout]

  const AdminMenu: seq<MenuItem> := [
    MenuItem("特徴", "/mypage/feature_mng", "feature.png"),
    MenuItem("募集条件", "/mypage/criteria_mng", "criteria.png"),
    MenuItem("求人管理", "/mypage/job_mng", "job.png"),
    MenuItem("応募管理", "/mypage/application_mng", "application.png"),
    MenuItem("応募者管理", "/mypage/applicant_mng", "applicants.png"),
    MenuItem("企業管理", "/mypage/company_mng", "company.png"),
    MenuItem("チャット管理", "/mypage/chat_mng", "chat.png"),
    MenuItem("プロフィール", "/mypage/profile", "man1.png"),
    Logout]

  const SubadminMenu: seq<MenuItem> := [
    MenuItem("企業管理", "/mypage/company_mng", "company.png"),
    MenuItem("プロフィール", "/mypage/profile", "man1.png"),
    Logout]

  /** `menuItemsByRole`, keyed by the lower-cased role. */
  const MenuItemsByRole: map<string, seq<MenuItem>> :=
    map["jobseeker" := JobSeekerMenu, "employer" := EmployerMenu, "admin" := AdminMenu, "subadmin" := SubadminMenu]

  /** Paths serve as the list's keys, so no two entries share one. */
  predicate PathsDistinct(items: seq<MenuItem>)
  {
    forall i, j | 0 <= i < j < |items| :: items[i].path != items[j].path
  }

  predicate EndsWithLogout(items: seq<MenuItem>)
  {
    |items| >= 1 && items[|items| - 1] == Logout
  }

  /** Every menu ends with the logout entry, and no path repeats within a menu. */
  lemma MenusWellFormed()
    ensures forall key | key in MenuItemsByRole ::
      EndsWithLogout(MenuItemsByRole[key]) && PathsDistinct(MenuItemsByRole[key])
  {
    assert EndsWithLogout(JobSeekerMenu) && PathsDistinct(JobSeekerMenu);
    assert EndsWithLogout(EmployerMenu) && PathsDistinct(EmployerMenu);
    assert EndsWithLogout(AdminMenu) && PathsDistinct(AdminMenu);
    assert EndsWithLogout(SubadminMenu) && PathsDistinct(SubadminMenu);
  }

  /** The menu shown: none before mounting or without a role, otherwise the role's menu, or none for an unknown role. */
  function MenuItems(isMounted: bool, role: Option<string>): seq<MenuItem>
  {
    if !isMounted || role.None? || role.value == "" then []
    else
      var key := ToLower(role.value);
      if key in MenuItemsByRole then MenuItemsByRole[key] else []
  }

  lemma LowerCharIdempotent(c: char)
    ensures LowerChar(LowerChar(c)) == LowerChar(c)
  {
  }

  /** Lower-casing twice is lower-casing once. */
  lemma ToLowerIdempotent(s: string)
    ensures ToLower(ToLower(s)) == ToLower(s)
  {
    forall i | 0 <= i < |s|
      ensures ToLower(ToLower(s))[i] == ToLower(s)[i]
    {
      LowerCharIdempotent(s[i]);
    }
  }

  /**
    A mounted sidebar shows the menu of the role whatever its letter case, and a
    menu that is shown ends with the logout entry and repeats no path; a role that
    is not in the table shows nothing.
  */
  lemma MenuItemsSpec(isMounted: bool, role: Option<string>)
    ensures var items := MenuItems(isMounted, role);
      (items != [] <==> isMounted && role.Some? && ToLower(role.value) in MenuItemsByRole)
      && (items != [] ==> EndsWithLogout(items) && PathsDistinct(items))
      && (role.Some? ==> items == MenuItems(isMounted, Some(ToLower(role.value))))
  {
    MenusWellFormed();
    if role.Some? {
      ToLowerIdempotent(role.value);
      if ToLower(role.value) in MenuItemsByRole {
        assert role.value != "";
      }
    }
  }

  /** The role names the application uses select their own menus. */
  lemma RoleMenus()
    ensures MenuItems(true, Some("JobSeeker")) == JobSeekerMenu
    ensures MenuItems(true, Some("Employer")) == EmployerMenu
    ensures MenuItems(true, Some("admin")) == AdminMenu
    ensures MenuItems(true, Some("subadmin")) == SubadminMenu
  {
    assert ToLower("JobSeeker") == "jobseeker";
    assert ToLower("Employer") == "employer";
    assert ToLower("admin") == "admin";
    assert ToLower("subadmin") == "subadmin";
  }

  /** The sidebar renders only when mounted, signed in and with a role whose menu is non-empty. */
  predicate Rendered(isMounted: bool, isAuthenticated: bool, role: Option<string>)
  {
    isMounted && isAuthenticated && role.Some? && role.value != "" && MenuItems(isMounted, role) != []
  }

  lemma RenderedSpec(isMounted: bool, isAuthenticated: bool, role: Option<string>)
    ensures Rendered(isMounted, isAuthenticated, role) <==>
      isMounted && isAuthenticated && role.Some? && ToLower(role.value) in MenuItemsByRole
  {
    MenuItemsSpec(isMounted, role);
  }

  /** An entry other than logout is highlighted when it is the current page. */
  predicate Highlighted(pathname: string, item: MenuItem)
  {
    item.path != LogoutPath && pathname == item.path
  }

  /** In a shown menu at most one entry is highlighted, and never the logout entry. */
  lemma HighlightUnique(isMounted: bool, role: Option<string>, pathname: string)
    ensures var items := MenuItems(isMounted, role);
      (forall i, j | 0 <= i < |items| && 0 <= j < |items| && Highlighted(pathname, items[i]) && Highlighted(pathname, items[j]) :: i == j)
      && (items != [] ==> !Highlighted(pathname, items[|items| - 1]))
  {
    MenuItemsSpec(isMounted, role);
  }

  /** `window.innerWidth < 768`. */
  predicate IsMobileWidth(width: int)
  {
    width < 768
  }

  class SidebarState {
    var isMounted: bool
    var isMobile: bool
    var logoutModalShown: bool
    /** The parent's `isOpen`, which the sidebar changes through `setIsOpen`. */
    var isOpen: bool
    /** The URLs handed to `navigate`, oldest first. */
    var navigations: seq<string>
    var logoutCalls: nat

    constructor(isOpen: bool)
      ensures !isMounted && !isMobile && !logoutModalShown && this.isOpen == isOpen
      ensures navigations == [] && logoutCalls == 0
    {
      isMounted := false;
      isMobile := false;
      logoutModalShown := false;
      this.isOpen := isOpen;
      navigations := [];
      logoutCalls := 0;
    }

    /** The mount effect: mounted, and the mobile flag set from the window width. */
    method Mount(width: int)
      modifies this
      ensures isMounted && isMobile == IsMobileWidth(width)
      ensures logoutModalShown == old(logoutModalShown) && isOpen == old(isOpen)
      ensures navigations == old(navigations) && logoutCalls == old(logoutCalls)
    {
      isMounted := true;
      Resize(width);
    }

    /** The resize listener. */
    method Resize(width: int)
      modifies this
      ensures isMobile == IsMobileWidth(width)
      ensures isMounted == old(isMounted) && logoutModalShown == old(logoutModalShown) && isOpen == old(isOpen)
      ensures navigations == old(navigations) && logoutCalls == old(logoutCalls)
    {
      isMobile := width < 768;
    }

    /** `goNavigation`: navigate, and close the sidebar on mobile only. */
    method GoNavigation(url: string)
      modifies this
      ensures navigations == old(navigations) + [url]
      ensures isOpen == (old(isOpen) && !isMobile)
      ensures isMounted == old(isMounted) && isMobile == old(isMobile) && logoutModalShown == old(logoutModalShown)
      ensures logoutCalls == old(logoutCalls)
    {
      navigations := navigations + [url];
      if isMobile {
        isOpen := false;
      }
    }

    /** Clicking a menu entry: the logout entry asks for confirmation, any other navigates to its path. */
    method ClickItem(item: MenuItem)
      modifies this
      ensures item.path == LogoutPath ==>
        logoutModalShown && navigations == old(navigations) && isOpen == old(isOpen)
      ensures item.path != LogoutPath ==>
        navigations == old(navigations) + [item.path] && isOpen == (old(isOpen) && !isMobile)
        && logoutModalShown == old(logoutModalShown)
      ensures isMounted == old(isMounted) && isMobile == old(isMobile) && logoutCalls == old(logoutCalls)
    {
      if item.path == LogoutPath {
        logoutModalShown := true;
      } else {
        GoNavigation(item.path);
      }
    }

    /** Confirming the dialog logs out and closes the sidebar on mobile only; the dialog flag is left as it is. */
    method ConfirmLogout()
      requires logoutModalShown
      modifies this
      ensures logoutCalls == old(logoutCalls) + 1
      ensures isOpen == (old(isOpen) && !isMobile)
      ensures isMounted == old(isMounted) && isMobile == old(isMobile) && logoutModalShown
      ensures navigations == old(navigations)
    {
      logoutCalls := logoutCalls + 1;
      if isMobile {
        isOpen := false;
      }
    }

    method CancelLogout()
      requires logoutModalShown
      modifies this
      ensures !logoutModalShown
      ensures isMounted == old(isMounted) && isMobile == old(isMobile) && isOpen == old(isOpen)
      ensures navigations == old(navigations) && logoutCalls == old(logoutCalls)
    {
      logoutModalShown := false;
    }

    /** The toggle button. */
    method Toggle()
      requires isMounted
      modifies this
      ensures isOpen == !old(isOpen)
      ensures isMounted == old(isMounted) && isMobile == old(isMobile) && logoutModalShown == old(logoutModalShown)
      ensures navigations == old(navigations) && logoutCalls == old(logoutCalls)
    {
      isOpen := !isOpen;
    }

    /** The overlay, shown only on mobile while open, closes the sidebar. */
    method ClickOverlay()
      requires isMounted && isMobile && isOpen
      modifies this
      ensures !isOpen
      ensures isMounted == old(isMounted) && isMobile == old(isMobile) && logoutModalShown == old(logoutModalShown)
      ensures navigations == old(navigations) && logoutCalls == old(logoutCalls)
    {
      isOpen := false;
    }

    /**
      On a desktop width, using any entry of the menu leaves the sidebar open:
      either it navigates to the entry's path or, for the last entry, asks about logging out.
    */
    method ClickOnDesktop(items: seq<MenuItem>, k: nat)
      requires EndsWithLogout(items) && PathsDistinct(items) && k < |items| && !isMobile
      modifies this
      ensures isOpen == old(isOpen)
      ensures k == |items| - 1 <==> logoutModalShown && navigations == old(navigations)
      ensures k < |items| - 1 ==> navigations == old(navigations) + [items[k].path]
    {
      ghost var before := navigations;
      ClickItem(items[k]);
      if k < |items| - 1 {
        assert items[k].path != LogoutPath;
        assert navigations != before by {
          assert |navigations| == |before| + 1;
        }
      }
    }
  }
}
