/**
 * The profile page: the normalisation an editable link applies when it is
 * saved, the skill list, the contact-visibility flag, and the copies of each
 * kept in the browser's local store.
 */
module Profile {
  import opened Text
  import Seqs

  /** The keys `saveSocialLink` knows. */
  const LinkKeys: set<string> := {"linkedin", "github", "twitter", "website"}

  /** `/^https?:\/\//i.test(v)`: `v` starts with `http://` or `https://`, in any case. */
  predicate HasScheme(v: string)
    ensures HasScheme(v) ==> |v| >= 7 && Lower(v[..4]) == "http"
  {
    var plain := |v| >= 7 && Lower(v[..7]) == "http://";
    var secure := |v| >= 8 && Lower(v[..8]) == "https://";
    assert plain ==> Lower(v[..4]) == Lower(v[..7])[..4];
    assert secure ==> Lower(v[..4]) == Lower(v[..8])[..4];
    plain || secure
  }

  /**
   * `EditableInput.save`: the edited value, trimmed, with `https://` put in
   * front of a non-empty value that has no scheme, except in the phone field.
   */
  function Normalize(name: string, temp: string): (v: string)
    ensures IsTrimmed(v)
    ensures v == Trim(temp) || v == "https://" + Trim(temp)
    ensures name == "phone" ==> v == Trim(temp)
    ensures v == "" <==> IsBlank(temp)
    ensures name != "phone" && v != "" ==> HasScheme(v)
    ensures name != "phone" && HasScheme(Trim(temp)) ==> v == Trim(temp)
  {
    var val := Trim(temp);
    TrimEmptyIffBlank(temp);
    if name != "phone" && val != "" && !HasScheme(val) then
      PrefixedHasScheme(val);
      "https://" + val
    else val
  }

  /** A non-empty trimmed value with `https://` in front is trimmed and has a scheme. */
  lemma PrefixedHasScheme(val: string)
    requires val != [] && IsTrimmed(val)
    ensures IsTrimmed("https://" + val) && HasScheme("https://" + val)
  {
    var p := "https://" + val;
    assert p[..8] == "https://";
    assert p[|p| - 1] == val[|val| - 1];
  }

  /** Saving a value a second time changes nothing. */
  lemma NormalizeIdempotent(name: string, temp: string)
    ensures Normalize(name, Normalize(name, temp)) == Normalize(name, temp)
  {
    var v := Normalize(name, temp);
    TrimTrimmed(v);
  }

  /**
   * `addSkill`: the trimmed input is appended when it is not empty and not
   * already listed.
   */
  function AddSkillTo(skills: seq<string>, input: string): (r: seq<string>)
    ensures !IsBlank(input) && Trim(input) !in skills ==> r == skills + [Trim(input)]
    ensures IsBlank(input) || Trim(input) in skills ==> r == skills
  {
    var trimmed := Trim(input);
    TrimEmptyIffBlank(input);
    if trimmed != "" && !Seqs.Contains(skills, trimmed) then skills + [trimmed] else skills
  }

  /** Adding a skill keeps a duplicate-free list duplicate-free. */
  lemma AddKeepsDistinct(skills: seq<string>, input: string)
    requires Seqs.NoDuplicates(skills)
    ensures Seqs.NoDuplicates(AddSkillTo(skills, input))
  {
    var r := AddSkillTo(skills, input);
    if r != skills {
      forall i, j | 0 <= i < j < |r| ensures r[i] != r[j] {
        if j == |skills| {
          assert r[i] == skills[i];
        }
      }
    }
  }

  /** `removeSkill`: every copy of the skill goes, the others keep their order. */
  function RemoveSkillFrom(skills: seq<string>, skill: string): (r: seq<string>)
    ensures skill !in r
    ensures Seqs.IsSubsequence(r, skills)
    ensures forall s :: s != skill ==> multiset(r)[s] == multiset(skills)[s]
    ensures Seqs.NoDuplicates(skills) ==> Seqs.NoDuplicates(r)
  {
    var r := Seqs.RemoveAll(skills, skill);
    assert Seqs.NoDuplicates(skills) ==> Seqs.NoDuplicates(r) by {
      if Seqs.NoDuplicates(skills) {
        SubsequenceNoDuplicates(r, skills);
      }
    }
    r
  }

  /** A subsequence of a list without duplicates has none either. */
  lemma {:induction false} SubsequenceNoDuplicates(a: seq<string>, b: seq<string>)
    requires Seqs.IsSubsequence(a, b) && Seqs.NoDuplicates(b)
    ensures Seqs.NoDuplicates(a)
  {
    if a != [] {
      assert Seqs.NoDuplicates(b[1..]) by {
        forall i, j | 0 <= i < j < |b[1..]| ensures b[1..][i] != b[1..][j] {
          assert b[1..][i] == b[i + 1] && b[1..][j] == b[j + 1];
        }
      }
      if a[0] == b[0] && Seqs.IsSubsequence(a[1..], b[1..]) {
        SubsequenceNoDuplicates(a[1..], b[1..]);
        Seqs.SubsequenceMembers(a[1..], b[1..]);
        assert b[0] !in b[1..] by {
          forall k | 0 <= k < |b[1..]| ensures b[1..][k] != b[0] {
            assert b[1..][k] == b[k + 1];
          }
        }
        forall i, j | 0 <= i < j < |a| ensures a[i] != a[j] {
          if i == 0 {
            assert a[j] == a[1..][j - 1];
            assert a[1..][j - 1] in a[1..];
          } else {
            assert a[i] == a[1..][i - 1] && a[j] == a[1..][j - 1];
          }
        }
      } else {
        SubsequenceNoDuplicates(a, b[1..]);
      }
    }
  }

  /** Adding a skill that is not yet listed and then removing it leaves the list as it was before the add. */
  lemma AddThenRemove(skills: seq<string>, input: string)
    requires Trim(input) !in skills
    ensures RemoveSkillFrom(AddSkillTo(skills, input), Trim(input)) == skills
  {
    var t := Trim(input);
    var added := AddSkillTo(skills, input);
    var r := RemoveSkillFrom(added, t);
    assert forall x :: x in skills ==> x != t;
    if !IsBlank(input) {
      assert added == skills + [t];
      FilterDropsLast(skills, t);
    }
  }

  lemma {:induction false} FilterDropsLast(s: seq<string>, x: string)
    requires x !in s
    ensures Seqs.RemoveAll(s + [x], x) == s
  {
    if s == [] {
      assert [] + [x] == [x];
      assert [x][1..] == [];
    } else {
      var t := s[1..];
      assert s == [s[0]] + t && s + [x] == [s[0]] + (t + [x]);
      FilterDropsLast(t, x);
      RemoveAllCons(s[0], t + [x], x);
    }
  }

  /** Removal passes over a head that differs from the removed value. */
  lemma RemoveAllCons(h: string, t: seq<string>, x: string)
    requires h != x
    ensures Seqs.RemoveAll([h] + t, x) == [h] + Seqs.RemoveAll(t, x)
  {
    assert ([h] + t)[0] == h && ([h] + t)[1..] == t;
  }

  /** The stored text of the visibility flag: `val.toString()`. */
  function ShowFlag(b: bool): (text: string)
    ensures text == "true" <==> b
    ensures text == "false" <==> !b
  {
    if b then "true" else "false"
  }

  /** `getItem('contactVisible') !== 'false'`: visible unless the store says exactly "false". */
  function ContactVisibleFrom(store: map<string, string>): (visible: bool)
    ensures !visible <==> "contactVisible" in store && store["contactVisible"] == "false"
  {
    !("contactVisible" in store && store["contactVisible"] == "false")
  }

  /** What the toggle stores reads back as the flag it stored. */
  lemma ContactVisibleRoundTrip(store: map<string, string>, b: bool)
    ensures ContactVisibleFrom(store["contactVisible" := ShowFlag(b)]) == b
  {
  }

  /** `getItem(k) || ''`. */
  function StoredOrEmpty(store: map<string, string>, k: string): (v: string)
    ensures k in store ==> v == store[k]
    ensures k !in store ==> v == ""
  {
    if k in store then store[k] else ""
  }

  /** The profile page's fields and the local store it mirrors them to. */
  class ProfilePage {
    var store: map<string, string>
    var linkedin: string
    var github: string
    var twitter: string
    var website: string
    var phone: string
    var location: string
    var contactVisible: bool
    var skills: seq<string>
    var skillInput: string

    /** The four links, by the key each is saved under. */
    function Links(): map<string, string>
      reads this
    {
      map["linkedin" := linkedin, "github" := github, "twitter" := twitter, "website" := website]
    }

    /**
     * The load effect on a store; `storedSkills` is what the stored JSON text
     * of the skills decodes to.
     */
    constructor (initial: map<string, string>, storedSkills: seq<string>)
      ensures store == initial
      ensures Links() == map k | k in LinkKeys :: StoredOrEmpty(initial, k)
      ensures phone == StoredOrEmpty(initial, "phone") && location == StoredOrEmpty(initial, "location")
      ensures contactVisible == ContactVisibleFrom(initial)
      ensures skills == storedSkills && skillInput == ""
    {
      store := initial;
      linkedin := StoredOrEmpty(initial, "linkedin");
      github := StoredOrEmpty(initial, "github");
      twitter := StoredOrEmpty(initial, "twitter");
      website := StoredOrEmpty(initial, "website");
      phone := StoredOrEmpty(initial, "phone");
      location := StoredOrEmpty(initial, "location");
      contactVisible := ContactVisibleFrom(initial);
      skills := storedSkills;
      skillInput := "";
    }

    /** `saveSocialLink(key, val)`: a known key takes the value, in the field and in the store; any other changes nothing. */
    method SaveSocialLink(key: string, val: string)
      modifies this
      ensures key !in LinkKeys ==> store == old(store) && Links() == old(Links())
      ensures key in LinkKeys ==> store == old(store)[key := val] && Links() == old(Links())[key := val]
      ensures phone == old(phone) && location == old(location) && contactVisible == old(contactVisible)
      ensures skills == old(skills) && skillInput == old(skillInput)
    {
      if key == "linkedin" {
        linkedin := val;
      } else if key == "github" {
        github := val;
      } else if key == "twitter" {
        twitter := val;
      } else if key == "website" {
        website := val;
      }
      if key in LinkKeys {
        store := store[key := val];
      }
    }

    /** `savePhone(val)`. */
    method SavePhone(val: string)
      modifies this
      ensures phone == val && store == old(store)["phone" := val]
      ensures Links() == old(Links())
      ensures location == old(location) && contactVisible == old(contactVisible)
      ensures skills == old(skills) && skillInput == old(skillInput)
    {
      phone := val;
      store := store["phone" := val];
    }

    /** `saveLocation(val)`. */
    method SaveLocation(val: string)
      modifies this
      ensures location == val && store == old(store)["location" := val]
      ensures Links() == old(Links())
      ensures phone == old(phone) && contactVisible == old(contactVisible)
      ensures skills == old(skills) && skillInput == old(skillInput)
    {
      location := val;
      store := store["location" := val];
    }

    /** The save handler an editable line named `name` is wired to, given the value it saves. */
    method SaveField(name: string, v: string)
      modifies this
      ensures name in LinkKeys ==> Links() == old(Links())[name := v] && store == old(store)[name := v]
      ensures name == "phone" ==> phone == v && store == old(store)["phone" := v]
      ensures name == "location" ==> location == v && store == old(store)["location" := v]
      ensures name !in LinkKeys && name != "phone" && name != "location" ==> store == old(store)
      ensures name != "phone" ==> phone == old(phone)
      ensures name != "location" ==> location == old(location)
      ensures name !in LinkKeys ==> Links() == old(Links())
      ensures skills == old(skills) && contactVisible == old(contactVisible) && skillInput == old(skillInput)
    {
      if name == "phone" {
        SavePhone(v);
      } else if name == "location" {
        SaveLocation(v);
      } else {
        SaveSocialLink(name, v);
      }
    }

    /**
     * An editable line named `name` is saved with the text `temp`: the
     * normalised value goes to the line's save handler.
     */
    method SaveEditable(name: string, temp: string)
      modifies this
      ensures var v := Normalize(name, temp);
        && (name in LinkKeys ==> Links() == old(Links())[name := v] && store == old(store)[name := v])
        && (name == "phone" ==> phone == v && store == old(store)["phone" := v])
        && (name == "location" ==> location == v && store == old(store)["location" := v])
      ensures name !in LinkKeys && name != "phone" && name != "location" ==> store == old(store)
      ensures name != "phone" ==> phone == old(phone)
      ensures name != "location" ==> location == old(location)
      ensures name !in LinkKeys ==> Links() == old(Links())
      ensures skills == old(skills) && contactVisible == old(contactVisible) && skillInput == old(skillInput)
    {
      SaveField(name, Normalize(name, temp));
    }

    /** `addSkill()`: the input always ends up cleared. */
    method AddSkill()
      modifies this
      ensures skills == AddSkillTo(old(skills), old(skillInput))
      ensures skillInput == ""
      ensures unchanged(this`store, this`contactVisible, this`phone, this`location)
      ensures unchanged(this`linkedin, this`github, this`twitter, this`website)
    {
      var next := AddSkillTo(skills, skillInput);
      skillInput := "";
      skills := next;
    }

    /** `removeSkill(skill)`. */
    method RemoveSkill(skill: string)
      modifies this
      ensures skills == RemoveSkillFrom(old(skills), skill)
      ensures unchanged(this`skillInput, this`store, this`contactVisible, this`phone, this`location)
      ensures unchanged(this`linkedin, this`github, this`twitter, this`website)
    {
      skills := RemoveSkillFrom(skills, skill);
    }

    /** The visibility checkbox: the flag flips and its text is stored. */
    method ToggleContactVisible()
      modifies this
      ensures contactVisible == !old(contactVisible)
      ensures store == old(store)["contactVisible" := ShowFlag(contactVisible)]
      ensures ContactVisibleFrom(store) == contactVisible
      ensures skills == old(skills) && skillInput == old(skillInput)
      ensures phone == old(phone) && location == old(location)
      ensures Links() == old(Links())
    {
      contactVisible := !contactVisible;
      store := store["contactVisible" := ShowFlag(contactVisible)];
    }
  }
}
