/**
 * setup_admin.py: the first-time helper that puts a chat id on the admin
 * list of `admins.json`. The id is checked first; the list is loaded (an
 * absent file reads as an empty list), the id is appended in place when it
 * is not listed yet, and the file is written only in that case. Reading and
 * writing the file are left out: the stored list is a parameter and the
 * written list a result.
 */
module SetupAdmin {
  import opened Wrappers
  import opened Seqs
  import opened ChatId

  /** How a run ends; only `AdminAdded` writes the file. */
  datatype Outcome = UsageShown | NotAChatId(id: string) | AlreadyAdmin(id: string) | AdminAdded(id: string)

  /** The list after adding `id`: unchanged when `id` is listed, else `id` at the end. */
  function WithAdmin(admins: seq<string>, id: string): (r: seq<string>)
    ensures id in r && admins <= r
    ensures forall x :: x in r <==> x in admins || x == id
    ensures id in admins <==> r == admins
    ensures |r| <= |admins| + 1
    ensures NoDup(admins) ==> NoDup(r)
  {
    if id in admins then admins
    else
      assert NoDup(admins) ==> NoDup(admins + [id]) by {
        if NoDup(admins) { AppendNoDup(admins, id); }
      }
      admins + [id]
  }

  /** The loaded `admins.json`, whose admin list the script updates in place. */
  class AdminData {
    var admins: seq<string>

    /** Loading the file: its list, or `{"admins": []}` when there is no file. */
    constructor (stored: Option<seq<string>>)
      ensures admins == stored.GetOr([])
    {
      admins := stored.GetOr([]);
    }

    /** `data["admins"].append(chat_id)` guarded by the membership test. */
    method AddIfMissing(id: string) returns (added: bool)
      modifies this
      ensures added <==> id !in old(admins)
      ensures admins == WithAdmin(old(admins), id)
    {
      added := id !in admins;
      if added {
        admins := admins + [id];
      }
    }
  }

  /**
   * `main`: without an argument it shows the usage; an argument that is not a
   * chat id is refused; otherwise a listed id leaves the file alone, and a new
   * id is written at the end of the list, which stays free of duplicates.
   * Running it again with the same id writes nothing.
   */
  method Run(argv: seq<string>, stored: Option<seq<string>>) returns (outcome: Outcome, written: Option<seq<string>>)
    ensures |argv| < 2 ==> outcome == UsageShown
    ensures |argv| >= 2 && !IsChatId(argv[1]) ==> outcome == NotAChatId(argv[1])
    ensures |argv| >= 2 && IsChatId(argv[1]) ==>
      && (argv[1] in stored.GetOr([]) <==> outcome == AlreadyAdmin(argv[1]))
      && (argv[1] !in stored.GetOr([]) <==> outcome == AdminAdded(argv[1]))
    ensures written.Some? <==> outcome.AdminAdded?
    ensures written.Some? ==> written.value == stored.GetOr([]) + [argv[1]] && written.value == WithAdmin(stored.GetOr([]), argv[1])
    ensures written.Some? && NoDup(stored.GetOr([])) ==> NoDup(written.value)
  {
    if |argv| < 2 {
      return UsageShown, None;
    }
    var id := argv[1];
    if !IsChatId(id) {
      return NotAChatId(id), None;
    }
    var data := new AdminData(stored);
    var added := data.AddIfMissing(id);
    if added {
      outcome, written := AdminAdded(id), Some(data.admins);
    } else {
      outcome, written := AlreadyAdmin(id), None;
    }
  }
}
