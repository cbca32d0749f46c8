/**
 Who may talk to a channel: sender lists with exact names, `id|username` senders, `@` prefixes
 and globs.
 */
module Allowlist {
  import opened Wrappers
  import opened Text
  import opened Glob

  /** The part of a sender in front of the first `|`, or all of it. */
  function IdPart(sender: string): string {
    match IndexOf(sender, '|') case Some(i) => sender[..i] case None => sender
  }

  /** The part behind the first `|`, or nothing. */
  function UserPart(sender: string): string {
    match IndexOf(sender, '|') case Some(i) => sender[i + 1..] case None => ""
  }

  /** The texts an entry is compared with. */
  function Names(sender: string): set<string> {
    {sender, IdPart(sender)} + (if UserPart(sender) == "" then {} else {UserPart(sender)})
  }

  function TrimAts(s: string): string {
    if s != "" && s[0] == '@' then TrimAts(s[1..]) else s
  }

  /** A glob must match the name in lower case; another entry must be the name, up to leading `@`. */
  ghost predicate Fits(lower: string -> string, entry: string, name: string) {
    if '*' in TrimAts(entry) then Accepts(lower(TrimAts(entry)), lower(name))
    else name == entry || name == TrimAts(entry)
  }

  /** The entry fits one of the sender's names. */
  ghost predicate Admits(lower: string -> string, entry: string, sender: string) {
    exists name | name in Names(sender) :: Fits(lower, entry, name)
  }

  lemma AdmitsOneByOne(lower: string -> string, entry: string, sender: string)
    ensures Admits(lower, entry, sender) <==>
              Fits(lower, entry, sender) || Fits(lower, entry, IdPart(sender))
              || (UserPart(sender) != "" && Fits(lower, entry, UserPart(sender)))
  {
    hide Fits, IdPart, UserPart;
    assert sender in Names(sender) && IdPart(sender) in Names(sender);
  }

  /** A composite sender is known by its id, its user name and both together. */
  lemma CompositeSender(id: string, user: string)
    requires '|' !in id
    ensures Names(id + ['|'] + user) == {id + ['|'] + user, id} + (if user == "" then {} else {user})
  {
    var sender := id + ['|'] + user;
    IndexOfFirst(id, '|', user);
    assert sender[..|id|] == id && sender[|id| + 1..] == user;
  }

  lemma {:induction false} TrimAtsOf(ats: string, name: string)
    requires (forall i | 0 <= i < |ats| :: ats[i] == '@') && (name != "" ==> name[0] != '@')
    ensures TrimAts(ats + name) == name
  {
    if ats == "" {
      assert ats + name == name;
    } else {
      assert (ats + name)[0] == ats[0] && (ats + name)[1..] == ats[1..] + name;
      TrimAtsOf(ats[1..], name);
    }
  }

  /** With or without leading `@`, a plain entry admits exactly the senders known by that name. */
  lemma PlainEntry(lower: string -> string, ats: string, name: string, sender: string)
    requires forall i | 0 <= i < |ats| :: ats[i] == '@'
    requires '*' !in name && (name != "" ==> name[0] != '@')
    ensures Admits(lower, ats + name, sender) <==> name in Names(sender) || ats + name in Names(sender)
  {
    TrimAtsOf(ats, name);
    hide Names, TrimAts;
    assert forall n :: Fits(lower, ats + name, n) <==> n == name || n == ats + name;
  }

  class BaseChannel {
    /** The library's lower-casing. */
    const lower: string -> string
    const allowFrom: seq<string>
    const allowFromGroups: seq<string>

    constructor (lower: string -> string, allowFrom: seq<string>, allowFromGroups: seq<string>)
      ensures this.lower == lower && this.allowFrom == allowFrom && this.allowFromGroups == allowFromGroups
    {
      this.lower, this.allowFrom, this.allowFromGroups := lower, allowFrom, allowFromGroups;
    }

    method MatchesAllowlist(sender: string, list: seq<string>) returns (matched: bool)
      ensures matched <==> exists allowed | allowed in list :: Admits(lower, allowed, sender)
    {
      hide Accepts, TrimAts, Admits;
      var idPart, userPart := sender, "";
      match IndexOf(sender, '|') {
        case Some(idx) => idPart, userPart := sender[..idx], sender[idx + 1..];
        case None =>
      }
      for i := 0 to |list|
        invariant forall j | 0 <= j < i :: !Admits(lower, list[j], sender)
      {
        var allowed := list[i];
        var trimmed := TrimAts(allowed);
        var hit: bool;
        if '*' in trimmed {
          var pat := lower(trimmed);
          hit := GlobMatchPattern(pat, lower(sender));
          if !hit { hit := GlobMatchPattern(pat, lower(idPart)); }
          if !hit && userPart != "" { hit := GlobMatchPattern(pat, lower(userPart)); }
        } else {
          hit := sender == allowed || sender == trimmed || idPart == allowed || idPart == trimmed
                 || (userPart != "" && (userPart == allowed || userPart == trimmed));
        }
        AdmitsOneByOne(lower, allowed, sender);
        if hit {
          assert allowed in list;
          return true;
        }
      }
      return false;
    }

    /** An empty list admits everybody. */
    method IsAllowed(sender: string) returns (allowed: bool)
      ensures allowed <==> allowFrom == [] || exists a | a in allowFrom :: Admits(lower, a, sender)
    {
      if allowFrom == [] {
        return true;
      }
      allowed := MatchesAllowlist(sender, allowFrom);
    }

    /** A channel without a group list uses the personal one for groups, too. */
    method IsGroupAllowed(sender: string) returns (allowed: bool)
      ensures allowFromGroups == [] ==> (allowed <==> allowFrom == [] || exists a | a in allowFrom :: Admits(lower, a, sender))
      ensures allowFromGroups != [] ==> (allowed <==> exists a | a in allowFromGroups :: Admits(lower, a, sender))
    {
      var list := if allowFromGroups == [] then allowFrom else allowFromGroups;
      if list == [] {
        return true;
      }
      allowed := MatchesAllowlist(sender, list);
    }
  }
}
