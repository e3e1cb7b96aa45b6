/**
 The release channels offered by the branch combo box, in the order the combo
 lists them: `release`, `rc`, `dev`.
 */
module Branches {
  import opened Options

  datatype Branch = Release | Rc | Dev

  /** The combo's fixed item texts, in display order. */
  const ComboItems: seq<string> := ["release", "rc", "dev"]

  /** The text the combo shows for a branch. */
  function Name(b: Branch): (r: string)
    ensures r in ComboItems
  {
    match b
    case Release => "release"
    case Rc => "rc"
    case Dev => "dev"
  }

  /** Selecting a combo entry by its text: only the three item texts select anything. */
  function FromText(s: string): (r: Option<Branch>)
    ensures r.Some? <==> s in ComboItems
    ensures r.Some? ==> Name(r.value) == s
  {
    if s == "release" then Some(Release)
    else if s == "rc" then Some(Rc)
    else if s == "dev" then Some(Dev)
    else None
  }

  /** Reading back the text of a branch selects that same branch. */
  lemma FromTextName(b: Branch)
    ensures FromText(Name(b)) == Some(b)
  {
  }
}
