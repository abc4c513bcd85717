/** The sidebar navigation (`app/components/desktop-nav.tsx`): the constant
    links table, the role filter that picks the links a user may see, and the
    avatar-initials and display-name strings built from the user's name. */
module DesktopNav {
  import opened Common

  datatype Role = SuperAdmin | ClientUser | ClientAdmin

  /** One entry of the links table (the icon is presentation only). */
  datatype NavLink = NavLink(name: string, href: string, access: seq<Role>)

  const LeadsLink := NavLink("Leads", "/leads", [SuperAdmin, ClientUser, ClientAdmin])
  const ClientsLink := NavLink("Clients", "/clients", [SuperAdmin])
  const UsersLink := NavLink("Users", "/users", [SuperAdmin])

  const Links: seq<NavLink> := [LeadsLink, ClientsLink, UsersLink]

  /** `user?.role && link.access.includes(user.role)`. */
  predicate Shown(role: Option<Role>, link: NavLink)
  {
    role.Some? && role.value in link.access
  }

  /** `links.filter(...)`: the links shown to a user with the given role. */
  function VisibleLinks(links: seq<NavLink>, role: Option<Role>): (r: seq<NavLink>)
    ensures |r| <= |links|
    ensures forall l :: l in r <==> l in links && Shown(role, l)
  {
    if links == [] then []
    else (if Shown(role, links[0]) then [links[0]] else []) + VisibleLinks(links[1..], role)
  }

  /** The positions in `links` of the links the role may see, in order. */
  function ShownPositions(links: seq<NavLink>, role: Option<Role>): seq<nat>
  {
    if links == [] then []
    else (if Shown(role, links[0]) then [0] else []) + Shift(ShownPositions(links[1..], role))
  }

  function Shift(p: seq<nat>): (q: seq<nat>)
    ensures |q| == |p| && forall i :: 0 <= i < |p| ==> q[i] == p[i] + 1
  {
    seq(|p|, i requires 0 <= i < |p| => p[i] + 1)
  }

  predicate Increasing(p: seq<nat>)
  {
    forall i, j :: 0 <= i < j < |p| ==> p[i] < p[j]
  }

  /** `p` lists positions of `links` whose links, in turn, make up `r`. */
  predicate Picks(p: seq<nat>, links: seq<NavLink>, r: seq<NavLink>)
  {
    && |p| == |r|
    && forall i :: 0 <= i < |p| ==> p[i] < |links| && links[p[i]] == r[i]
  }

  /** `p` holds exactly the positions of the links the role may see. */
  predicate Exact(p: seq<nat>, links: seq<NavLink>, role: Option<Role>)
  {
    forall k :: 0 <= k < |links| ==> (k in p <==> Shown(role, links[k]))
  }

  lemma ShiftIncreasing(head: seq<nat>, p: seq<nat>)
    requires Increasing(p) && (head == [] || head == [0])
    ensures Increasing(head + Shift(p))
  {
    var q := head + Shift(p);
    forall i, j | 0 <= i < j < |q| ensures q[i] < q[j] {
      assert q[j] == p[j - |head|] + 1;
      if i >= |head| {
        assert q[i] == p[i - |head|] + 1;
      } else {
        assert q[i] == 0;
      }
    }
  }

  lemma ShiftPicks(head: seq<nat>, headLinks: seq<NavLink>, p: seq<nat>, links: seq<NavLink>, r: seq<NavLink>)
    requires links != [] && Picks(p, links[1..], r)
    requires (head == [] && headLinks == []) || (head == [0] && headLinks == [links[0]])
    ensures Picks(head + Shift(p), links, headLinks + r)
  {
    var q := head + Shift(p);
    var r' := headLinks + r;
    forall i | 0 <= i < |q| ensures q[i] < |links| && links[q[i]] == r'[i] {
      if i >= |head| {
        var m := i - |head|;
        assert q[i] == p[m] + 1 && r'[i] == r[m];
        assert links[p[m] + 1] == links[1..][p[m]];
      }
    }
  }

  lemma ShiftExact(p: seq<nat>, links: seq<NavLink>, role: Option<Role>)
    requires links != [] && Exact(p, links[1..], role)
    ensures Exact((if Shown(role, links[0]) then [0] else []) + Shift(p), links, role)
  {
    var q := Shift(p);
    var r := (if Shown(role, links[0]) then [0] else []) + q;
    forall k | 0 <= k < |links| ensures k in r <==> Shown(role, links[k]) {
      if k == 0 {
        assert 0 !in q;
      } else {
        assert links[k] == links[1..][k - 1];
        if k in q {
          var i :| 0 <= i < |q| && q[i] == k;
          assert p[i] == k - 1;
        }
        if k - 1 in p {
          var i :| 0 <= i < |p| && p[i] == k - 1;
          assert q[i] == k;
        }
        assert k in r <==> k in q;
      }
    }
  }

  /** The shown links are the table's links at the shown positions; those
      positions increase strictly, so the table's order is kept; and they are
      exactly the positions of the links the role may see. */
  lemma {:induction false} VisibleLinksInOrder(links: seq<NavLink>, role: Option<Role>)
    ensures Picks(ShownPositions(links, role), links, VisibleLinks(links, role))
    ensures Increasing(ShownPositions(links, role))
    ensures Exact(ShownPositions(links, role), links, role)
  {
    if links != [] {
      VisibleLinksInOrder(links[1..], role);
      var pt := ShownPositions(links[1..], role);
      var head: seq<nat> := if Shown(role, links[0]) then [0] else [];
      var headLinks := if Shown(role, links[0]) then [links[0]] else [];
      ShiftPicks(head, headLinks, pt, links, VisibleLinks(links[1..], role));
      ShiftIncreasing(head, pt);
      ShiftExact(pt, links, role);
    }
  }

  /** Only a super admin sees anything beyond the leads page. */
  lemma OnlySuperAdminSeesAdminPages(role: Option<Role>, l: NavLink)
    requires l in VisibleLinks(Links, role) && l.href != "/leads"
    ensures role == Some(SuperAdmin)
  {
  }

  /** The filter over the table, one link at a time. */
  lemma VisibleTable(role: Option<Role>)
    ensures VisibleLinks(Links, role) ==
      (if Shown(role, LeadsLink) then [LeadsLink] else []) +
      (if Shown(role, ClientsLink) then [ClientsLink] else []) +
      (if Shown(role, UsersLink) then [UsersLink] else [])
  {
    assert Links[1..] == [ClientsLink, UsersLink];
    assert Links[1..][1..] == [UsersLink];
    assert VisibleLinks([UsersLink], role) == (if Shown(role, UsersLink) then [UsersLink] else []) + VisibleLinks([], role);
  }

  /** A super admin sees the whole table. */
  lemma SuperAdminSeesAll()
    ensures VisibleLinks(Links, Some(SuperAdmin)) == Links
  {
    VisibleTable(Some(SuperAdmin));
    assert Shown(Some(SuperAdmin), LeadsLink) && Shown(Some(SuperAdmin), ClientsLink) && Shown(Some(SuperAdmin), UsersLink);
  }

  /** Client users and client admins see only "Leads". */
  lemma ClientRolesSeeLeads(role: Role)
    requires role == ClientUser || role == ClientAdmin
    ensures VisibleLinks(Links, Some(role)) == [LeadsLink]
  {
    VisibleTable(Some(role));
    assert Shown(Some(role), LeadsLink) by {
      assert LeadsLink.access[1] == ClientUser && LeadsLink.access[2] == ClientAdmin;
    }
    assert !Shown(Some(role), ClientsLink) && !Shown(Some(role), UsersLink);
  }

  /** A user without a role sees no link. */
  lemma NoRoleSeesNothing()
    ensures VisibleLinks(Links, None) == []
  {
    VisibleTable(None);
  }

  /** `toUpperCase` on one character, for the ASCII letters. */
  function UpperAscii(c: char): char
  {
    if 'a' <= c <= 'z' then (c as int - 32) as char else c
  }

  predicate IsLowerAscii(c: char)
  {
    'a' <= c <= 'z'
  }

  /** `s.charAt(0).toUpperCase()`: empty for the empty string. */
  function FirstUpper(s: string): string
  {
    if s == [] then "" else [UpperAscii(s[0])]
  }

  /** The avatar fallback: the first letter of the first name and, when the
      user has a last name, the first letter of that, each upper-cased. */
  function Initials(firstName: string, lastName: Option<string>): (r: string)
    ensures |r| == (if firstName == "" then 0 else 1) + (if lastName.Some? && lastName.value != "" then 1 else 0)
    ensures firstName != "" ==> r[0] == UpperAscii(firstName[0])
    ensures lastName.Some? && lastName.value != "" ==> r[|r| - 1] == UpperAscii(lastName.value[0])
    ensures forall i :: 0 <= i < |r| ==> !IsLowerAscii(r[i])
  {
    FirstUpper(firstName) + (if lastName.Some? then FirstUpper(lastName.value) else "")
  }

  /** The name shown: the first name and, when the last name is present and
      not empty, a space and the last name. */
  function DisplayName(firstName: string, lastName: Option<string>): (r: string)
    ensures firstName <= r
    ensures lastName.Some? && lastName.value != "" ==> r[|firstName|..] == " " + lastName.value
    ensures !(lastName.Some? && lastName.value != "") ==> r == firstName
  {
    if lastName.Some? && lastName.value != "" then firstName + " " + lastName.value else firstName
  }
}
