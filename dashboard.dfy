/** The in-memory vault of the dashboard page: the list of entries, the
    add-entry form and its modal, the set of entries whose password is shown,
    the password generator and the category icons.

    Inputs the page takes from the browser become parameters: the fresh id
    (`crypto.randomUUID()`), the creation time (`new Date()`) and the 16
    random draws of the generator. */
module Dashboard {

  /** One entry of the page's own list. */
  datatype VaultItem = VaultItem(
    id: string,
    title: string,
    username: string,
    password: string,
    website: string,
    category: string,
    createdAt: int)

  /** The fields of the add-entry form. */
  datatype ItemForm = ItemForm(
    title: string,
    username: string,
    password: string,
    website: string,
    category: string)

  /** The form as it starts and as a successful add leaves it. */
  const BlankForm: ItemForm := ItemForm("", "", "", "", "Login")

  /** The form may be saved only with a title and a password (the guard of the
      handler and the `disabled` test of the save button). */
  predicate CanSave(form: ItemForm) {
    form.title != "" && form.password != ""
  }

  /** The entry the add handler builds from the form. */
  function ItemFromForm(form: ItemForm, id: string, createdAt: int): (item: VaultItem)
    ensures item.id == id && item.createdAt == createdAt
    ensures ItemForm(item.title, item.username, item.password, item.website, item.category) == form
  {
    VaultItem(id, form.title, form.username, form.password, form.website, form.category, createdAt)
  }

  // ---------------------------------------------------------------------------
  // Password visibility
  // ---------------------------------------------------------------------------

  /** The visible set after a click on `id`'s eye button. */
  function Toggled(visible: set<string>, id: string): (r: set<string>)
    ensures id in r <==> id !in visible
    ensures forall x :: x != id ==> (x in r <==> x in visible)
  {
    if id in visible then visible - {id} else visible + {id}
  }

  /** Two clicks on the same entry restore the set. */
  lemma ToggleTwice(visible: set<string>, id: string)
    ensures Toggled(Toggled(visible, id), id) == visible
  {
  }

  /** Clicks on two entries commute. */
  lemma ToggleCommutes(visible: set<string>, a: string, b: string)
    ensures Toggled(Toggled(visible, a), b) == Toggled(Toggled(visible, b), a)
  {
  }

  // ---------------------------------------------------------------------------
  // Password generator
  // ---------------------------------------------------------------------------

  /** The generator's 70 characters. */
  const Alphabet: string := "ABCDEFGHIJKLMNOPQRSTUVWXYZabcdefghijklmnopqrstuvwxyz0123456789!@#$%^&*"

  /** The generator's loop count. */
  const PasswordLength: nat := 16

  /** Draws are indexes `Math.floor(Math.random() * chars.length)`: each lies
      in [0, 70). */
  predicate ValidDraws(draws: seq<nat>) {
    forall i :: 0 <= i < |draws| ==> draws[i] < |Alphabet|
  }

  /** The password a sequence of draws spells. */
  function PasswordFrom(draws: seq<nat>): (p: string)
    requires ValidDraws(draws)
    ensures |p| == |draws|
    ensures forall i :: 0 <= i < |draws| ==> p[i] == Alphabet[draws[i]]
  {
    if draws == [] then "" else PasswordFrom(draws[..|draws| - 1]) + [Alphabet[draws[|draws| - 1]]]
  }

  /** The position of `c` in `s`, when it occurs there. */
  function IndexOf(s: string, c: char): (k: nat)
    requires c in s
    ensures k < |s| && s[k] == c
  {
    if s[0] == c then 0 else 1 + IndexOf(s[1..], c)
  }

  /** The draws that spell `p`, one alphabet position per character. */
  function DrawsFor(p: string): (draws: seq<nat>)
    requires forall i :: 0 <= i < |p| ==> p[i] in Alphabet
    ensures |draws| == |p| && ValidDraws(draws)
  {
    if p == [] then [] else DrawsFor(p[..|p| - 1]) + [IndexOf(Alphabet, p[|p| - 1])]
  }

  /** Every string over the alphabet is spelled by some draws: the generator
      can produce every password of its length over its alphabet. */
  lemma {:induction false} EveryPasswordReachable(p: string)
    requires forall i :: 0 <= i < |p| ==> p[i] in Alphabet
    ensures PasswordFrom(DrawsFor(p)) == p
  {
    if p != [] {
      var init := p[..|p| - 1];
      EveryPasswordReachable(init);
      var draws := DrawsFor(p);
      var last := IndexOf(Alphabet, p[|p| - 1]);
      assert draws == DrawsFor(init) + [last];
      assert draws[..|draws| - 1] == DrawsFor(init);
      assert PasswordFrom(draws) == init + [Alphabet[last]];
      assert p == init + [p[|p| - 1]];
    }
  }

  // ---------------------------------------------------------------------------
  // Category icons
  // ---------------------------------------------------------------------------

  /** The icon of the default category. */
  const Folder: string := "\U{1F4C1}"

  /** The icon table of `getCategoryEmoji`. */
  const EmojiTable: map<string, string> := map[
    "Login" := "\U{1F510}",
    "Email" := "\U{1F4E7}",
    "Social" := "\U{1F4AC}",
    "Finance" := "\U{1F4B3}",
    "Work" := "\U{1F4BC}",
    "Shopping" := "\U{1F6D2}",
    "Entertainment" := "\U{1F3AE}",
    "Other" := Folder]

  /** `emojis[category] || '📁'`: a missing or empty table entry gives the folder. */
  function CategoryEmoji(category: string): (icon: string)
    ensures icon != ""
    ensures icon in EmojiTable.Values
  {
    assert EmojiTable["Other"] == Folder;
    if category in EmojiTable && EmojiTable[category] != "" then EmojiTable[category] else Folder
  }

  /** The eight categories of the form's menu get their own icons; every
      other string gets the folder. */
  lemma CategoryEmojiTable(category: string)
    ensures category == "Login" ==> CategoryEmoji(category) == "\U{1F510}"
    ensures category == "Email" ==> CategoryEmoji(category) == "\U{1F4E7}"
    ensures category == "Social" ==> CategoryEmoji(category) == "\U{1F4AC}"
    ensures category == "Finance" ==> CategoryEmoji(category) == "\U{1F4B3}"
    ensures category == "Work" ==> CategoryEmoji(category) == "\U{1F4BC}"
    ensures category == "Shopping" ==> CategoryEmoji(category) == "\U{1F6D2}"
    ensures category == "Entertainment" ==> CategoryEmoji(category) == "\U{1F3AE}"
    ensures category == "Other" ==> CategoryEmoji(category) == Folder
    ensures category !in {"Login", "Email", "Social", "Finance", "Work", "Shopping", "Entertainment", "Other"} ==>
      CategoryEmoji(category) == Folder
  {
  }

  /** The folder marks exactly the categories outside the first seven. */
  lemma FolderExactlyForOthers(category: string)
    ensures CategoryEmoji(category) == Folder <==>
      category !in {"Login", "Email", "Social", "Finance", "Work", "Shopping", "Entertainment"}
  {
    assert "\U{1F510}" != Folder;
  }

  // ---------------------------------------------------------------------------
  // The page's state and handlers
  // ---------------------------------------------------------------------------

  class DashboardPage {
    var vaultItems: seq<VaultItem>
    var showAddModal: bool
    var newItem: ItemForm
    var visiblePasswords: set<string>

    /** The page's initial state: no entries, nothing shown, a blank form and
        the modal closed. */
    constructor ()
      ensures vaultItems == [] && visiblePasswords == {}
      ensures newItem == BlankForm && !showAddModal
    {
      vaultItems := [];
      showAddModal := false;
      newItem := BlankForm;
      visiblePasswords := {};
    }

    /** `handleAddItem`: `id` and `now` stand for `crypto.randomUUID()` and
        `new Date()`. */
    method HandleAddItem(id: string, now: int)
      modifies this
      ensures !CanSave(old(newItem)) ==> unchanged(this)
      ensures CanSave(old(newItem)) ==>
        vaultItems == [ItemFromForm(old(newItem), id, now)] + old(vaultItems) &&
        newItem == BlankForm && !showAddModal &&
        visiblePasswords == old(visiblePasswords)
    {
      if !CanSave(newItem) {
        return;
      }
      var item := ItemFromForm(newItem, id, now);
      vaultItems := [item] + vaultItems;
      newItem := BlankForm;
      showAddModal := false;
    }

    /** `togglePasswordVisibility`: copies the set, then removes or adds `id`. */
    method TogglePasswordVisibility(id: string)
      modifies this`visiblePasswords
      ensures visiblePasswords == Toggled(old(visiblePasswords), id)
    {
      var newVisible := visiblePasswords;
      if id in newVisible {
        newVisible := newVisible - {id};
      } else {
        newVisible := newVisible + {id};
      }
      visiblePasswords := newVisible;
    }

    /** `generatePassword`: `draws` are the 16 random indexes, one per turn of
        the loop. Only the form's password changes. */
    method GeneratePassword(draws: seq<nat>)
      requires |draws| == PasswordLength && ValidDraws(draws)
      modifies this`newItem
      ensures newItem == old(newItem).(password := PasswordFrom(draws))
      ensures |newItem.password| == PasswordLength
      ensures forall i :: 0 <= i < |newItem.password| ==> newItem.password[i] in Alphabet
    {
      var password := "";
      for i := 0 to PasswordLength
        invariant password == PasswordFrom(draws[..i])
      {
        assert draws[..i + 1][..i] == draws[..i];
        password := password + [Alphabet[draws[i]]];
      }
      assert draws[..PasswordLength] == draws;
      newItem := newItem.(password := password);
    }
  }
}
