/** The custom review rules panel: the list of rules, a modal form to add or edit one, and
    per-rule delete and enable/disable buttons. */
module RuleManagement {
  import opened Nullable
  import opened JsStrings
  import opened ErrorMessages
  import opened Api

  const LoadFailedMessage: string := "규칙 목록을 불러오는데 실패했습니다."
  const BlankContentWarning: string := "규칙 내용을 입력해주세요."
  const UpdatedMessage: string := "규칙이 수정되었습니다."
  const CreatedMessage: string := "새로운 규칙이 추가되었습니다."
  const DeletedMessage: string := "규칙이 삭제되었습니다."
  const DeleteFailedMessage: string := "삭제 실패"
  const ToggleFailedMessage: string := "상태 변경 실패"

  /** A preset chip under the pattern field: its caption and the glob it fills in. */
  datatype TargetPreset = TargetPreset(caption: string, value: string)

  /** `TARGET_PRESETS`. */
  const TargetPresets: seq<TargetPreset> := [
    TargetPreset("Java", "**/*.java"),
    TargetPreset("JS / TS", "**/*.{js,ts}"),
    TargetPreset("React", "**/*.{jsx,tsx}"),
    TargetPreset("Vue.js", "**/*.vue"),
    TargetPreset("Python", "**/*.py"),
    TargetPreset("C++", "**/*.{cpp,h}"),
    TargetPreset("All Files", "**/*")
  ]

  // ---------------------------------------------------------------------------------
  // The list updates
  // ---------------------------------------------------------------------------------

  /** `rules.filter(r => r.id !== id)`: the rules whose id is not `id`, in their order. */
  function RemoveById(rules: seq<Rule>, id: int): (r: seq<Rule>)
    ensures |r| <= |rules|
    ensures forall x :: x in r <==> x in rules && x.id != id
  {
    if rules == [] then []
    else (if rules[0].id == id then [] else [rules[0]]) + RemoveById(rules[1..], id)
  }

  /** `rules.map(r => r.id === id ? updated : r)`: the same list with every rule whose id
      is `id` replaced by `updated`. */
  function ReplaceById(rules: seq<Rule>, id: int, updated: Rule): (r: seq<Rule>)
    ensures |r| == |rules|
    ensures forall i :: 0 <= i < |r| ==> r[i] == if rules[i].id == id then updated else rules[i]
  {
    if rules == [] then []
    else [if rules[0].id == id then updated else rules[0]] + ReplaceById(rules[1..], id, updated)
  }

  /** How many rules carry the id `id`. */
  function CountId(rules: seq<Rule>, id: int): nat {
    if rules == [] then 0 else (if rules[0].id == id then 1 else 0) + CountId(rules[1..], id)
  }

  /** No two rules share an id. */
  predicate UniqueIds(rules: seq<Rule>) {
    forall i, j :: 0 <= i < j < |rules| ==> rules[i].id != rules[j].id
  }

  /** Removing works piece by piece: the kept rules of a concatenation are the kept rules of
      each part, one after the other, so the survivors keep their order. */
  lemma {:induction false} RemoveByIdDistributes(a: seq<Rule>, b: seq<Rule>, id: int)
    ensures RemoveById(a + b, id) == RemoveById(a, id) + RemoveById(b, id)
  {
    if a != [] {
      assert (a + b)[0] == a[0] && (a + b)[1..] == a[1..] + b;
      RemoveByIdDistributes(a[1..], b, id);
      var head: seq<Rule> := if a[0].id == id then [] else [a[0]];
      assert RemoveById(a + b, id) == head + RemoveById(a[1..] + b, id);
      assert RemoveById(a, id) == head + RemoveById(a[1..], id);
      assert head + (RemoveById(a[1..], id) + RemoveById(b, id)) == (head + RemoveById(a[1..], id)) + RemoveById(b, id);
    } else {
      assert a + b == b;
    }
  }

  /** Exactly the rules carrying the id are dropped: the list shrinks by their number, and
      a list without the id is left as it is. */
  lemma {:induction false} RemoveByIdCount(rules: seq<Rule>, id: int)
    ensures |RemoveById(rules, id)| == |rules| - CountId(rules, id)
    ensures CountId(rules, id) == 0 ==> RemoveById(rules, id) == rules
  {
    if rules != [] {
      RemoveByIdCount(rules[1..], id);
      if CountId(rules, id) == 0 {
        assert rules == [rules[0]] + rules[1..];
      }
    }
  }

  /** In a list with distinct ids, the id of a listed rule is carried by that rule only. */
  lemma {:induction false} UniqueIdCountsOnce(rules: seq<Rule>, k: int)
    requires UniqueIds(rules) && 0 <= k < |rules|
    ensures CountId(rules, rules[k].id) == 1
  {
    if k == 0 {
      AbsentIdCountsZero(rules[1..], rules[0].id);
    } else {
      assert UniqueIds(rules[1..]) by {
        forall i, j | 0 <= i < j < |rules| - 1 ensures rules[1..][i].id != rules[1..][j].id {
          assert rules[1..][i] == rules[i + 1] && rules[1..][j] == rules[j + 1];
        }
      }
      assert rules[1..][k - 1] == rules[k];
      UniqueIdCountsOnce(rules[1..], k - 1);
    }
  }

  /** An id no rule carries counts zero. */
  lemma {:induction false} AbsentIdCountsZero(rules: seq<Rule>, id: int)
    requires forall x :: x in rules ==> x.id != id
    ensures CountId(rules, id) == 0
  {
    if rules != [] {
      assert rules[0] in rules;
      assert forall x :: x in rules[1..] ==> x in rules;
      AbsentIdCountsZero(rules[1..], id);
    }
  }

  /** Deleting a listed rule from a list with distinct ids drops exactly that one rule. */
  lemma DeleteDropsOne(rules: seq<Rule>, k: int)
    requires UniqueIds(rules) && 0 <= k < |rules|
    ensures |RemoveById(rules, rules[k].id)| == |rules| - 1
    ensures rules[k] !in RemoveById(rules, rules[k].id)
  {
    UniqueIdCountsOnce(rules, k);
    RemoveByIdCount(rules, rules[k].id);
  }

  /** Deleting keeps the ids distinct. */
  lemma {:induction false} RemoveByIdKeepsUnique(rules: seq<Rule>, id: int)
    requires UniqueIds(rules)
    ensures UniqueIds(RemoveById(rules, id))
  {
    if rules != [] {
      assert UniqueIds(rules[1..]) by {
        forall i, j | 0 <= i < j < |rules| - 1 ensures rules[1..][i].id != rules[1..][j].id {
          assert rules[1..][i] == rules[i + 1] && rules[1..][j] == rules[j + 1];
        }
      }
      RemoveByIdKeepsUnique(rules[1..], id);
      var tail := RemoveById(rules[1..], id);
      if rules[0].id != id {
        var r := [rules[0]] + tail;
        forall i, j | 0 <= i < j < |r| ensures r[i].id != r[j].id {
          if i == 0 {
            assert r[j] in rules[1..];
            var m :| 0 <= m < |rules[1..]| && rules[1..][m] == r[j];
            assert rules[m + 1] == r[j];
          } else {
            assert r[i] == tail[i - 1] && r[j] == tail[j - 1];
          }
        }
      }
    }
  }

  /** Toggling with the server's copy of the same rule keeps every position's id, so the
      ids stay distinct; toggling an id no rule carries changes nothing. */
  lemma ReplaceByIdKeepsIds(rules: seq<Rule>, id: int, updated: Rule)
    ensures updated.id == id ==> forall i :: 0 <= i < |rules| ==> ReplaceById(rules, id, updated)[i].id == rules[i].id
    ensures updated.id == id && UniqueIds(rules) ==> UniqueIds(ReplaceById(rules, id, updated))
    ensures (forall x :: x in rules ==> x.id != id) ==> ReplaceById(rules, id, updated) == rules
  {
  }

  // ---------------------------------------------------------------------------------
  // The component
  // ---------------------------------------------------------------------------------

  class RuleManagement {
    var rules: seq<Rule>
    var isLoading: bool
    var isModalOpen: bool
    var editingRule: Option<Rule>
    var content: string
    var targetPattern: string
    var log: seq<UiEffect>

    /** The modal is closed and its form empty, as `handleCloseModal` leaves it. */
    ghost predicate FormReset()
      reads this
    {
      !isModalOpen && editingRule == None && content == "" && targetPattern == ""
    }

    /** First render: no rules yet, loading, the modal closed. */
    constructor ()
      ensures rules == [] && isLoading && FormReset() && log == []
    {
      rules, isLoading, isModalOpen, editingRule := [], true, false, None;
      content, targetPattern, log := "", "", [];
    }

    /** `loadRules`: the server's list, or on failure the old list and an error toast.
        Loading is over either way. */
    method LoadRules(reply: Reply<seq<Rule>>)
      modifies this`rules, this`isLoading, this`log
      ensures rules == if reply.Ok? then reply.value else old(rules)
      ensures !isLoading
      ensures log == old(log) + [Call(GetRules)] + if reply.Err? then [Toast(Error, LoadFailedMessage)] else []
    {
      log := log + [Call(GetRules)];
      match reply {
        case Ok(data) =>
          rules := data;
        case Err(_) =>
          log := log + [Toast(Error, LoadFailedMessage)];
      }
      isLoading := false;
    }

    /** `handleOpenModal`: with a rule, the form is filled from it (an absent pattern reads
        `''`); without one, the form is cleared. The modal is open either way. */
    method HandleOpenModal(rule: Option<Rule>)
      modifies this`isModalOpen, this`editingRule, this`content, this`targetPattern
      ensures isModalOpen && editingRule == rule
      ensures rule.Some? ==> (content == rule.value.content
        && targetPattern == (if rule.value.targetFilePattern.Some? then rule.value.targetFilePattern.value else ""))
      ensures rule.None? ==> content == "" && targetPattern == ""
    {
      match rule {
        case Some(r) =>
          editingRule := rule;
          content := r.content;
          targetPattern := TextOr(r.targetFilePattern, "");
        case None =>
          editingRule := None;
          content := "";
          targetPattern := "";
      }
      isModalOpen := true;
    }

    /** `handleCloseModal`: the modal closes and the form is cleared. */
    method HandleCloseModal()
      modifies this`isModalOpen, this`editingRule, this`content, this`targetPattern
      ensures FormReset()
    {
      isModalOpen, editingRule, content, targetPattern := false, None, "", "";
    }

    /** The content textarea's `onChange`. */
    method EditContent(text: string)
      modifies this`content
      ensures content == text
    {
      content := text;
    }

    /** The pattern field's `onChange`. */
    method EditTargetPattern(text: string)
      modifies this`targetPattern
      ensures targetPattern == text
    {
      targetPattern := text;
    }

    /** A preset chip fills the pattern field with its glob. */
    method ChoosePreset(preset: TargetPreset)
      requires preset in TargetPresets
      modifies this`targetPattern
      ensures targetPattern == preset.value && targetPattern != ""
    {
      targetPattern := preset.value;
    }

    /** `handleSaveRule`: blank content only warns. Otherwise the form goes out as it
        stands, to `updateRule` with the edited rule's id when editing and to `createRule`
        when adding; on success a success toast, the modal closes and the list is reloaded
        (`reload` is that reload's reply); on failure an error toast and everything else
        stays. */
    method HandleSaveRule(reply: Outcome, reload: Reply<seq<Rule>>)
      modifies this
      ensures IsBlank(old(content)) ==>
        && log == old(log) + [Toast(Warning, BlankContentWarning)]
        && rules == old(rules) && isLoading == old(isLoading) && isModalOpen == old(isModalOpen)
        && editingRule == old(editingRule) && content == old(content) && targetPattern == old(targetPattern)
      ensures !IsBlank(old(content)) ==>
        |log| > |old(log)| && log[..|old(log)| + 1] == old(log) + [Call(SaveRequest(old(editingRule), old(content), old(targetPattern)))]
      ensures !IsBlank(old(content)) && reply.Done? ==>
        && FormReset() && !isLoading
        && rules == (if reload.Ok? then reload.value else old(rules))
        && log == old(log) + [Call(SaveRequest(old(editingRule), old(content), old(targetPattern))),
                              Toast(Success, if old(editingRule).Some? then UpdatedMessage else CreatedMessage),
                              Call(GetRules)]
                          + (if reload.Err? then [Toast(Error, LoadFailedMessage)] else [])
      ensures !IsBlank(old(content)) && reply.Threw? ==>
        && log == old(log) + [Call(SaveRequest(old(editingRule), old(content), old(targetPattern))),
                              Toast(Error, GetErrorMessage(reply.error))]
        && rules == old(rules) && isLoading == old(isLoading) && isModalOpen == old(isModalOpen)
        && editingRule == old(editingRule) && content == old(content) && targetPattern == old(targetPattern)
    {
      TrimEmptyIffBlank(content);
      if Trim(content) == "" {
        log := log + [Toast(Warning, BlankContentWarning)];
        return;
      }
      var request := SaveRequest(editingRule, content, targetPattern);
      var success := if editingRule.Some? then UpdatedMessage else CreatedMessage;
      match reply {
        case Done =>
          log := log + [Call(request), Toast(Success, success)];
          HandleCloseModal();
          LoadRules(reload);
        case Threw(e) =>
          log := log + [Call(request), Toast(Error, GetErrorMessage(e))];
      }
    }

    /** `handleDeleteRule`: nothing happens unless the confirm dialog is accepted; then the
        rule is deleted and, on success, every rule with that id leaves the list; on failure
        the list stays and an error toast says so. */
    method HandleDeleteRule(id: int, confirmed: bool, reply: Outcome)
      modifies this`rules, this`log
      ensures !confirmed ==> rules == old(rules) && log == old(log)
      ensures confirmed && reply.Done? ==>
        rules == RemoveById(old(rules), id) && log == old(log) + [Call(DeleteRule(id)), Toast(Success, DeletedMessage)]
      ensures confirmed && reply.Threw? ==>
        rules == old(rules) && log == old(log) + [Call(DeleteRule(id)), Toast(Error, DeleteFailedMessage)]
    {
      if !confirmed {
        return;
      }
      log := log + [Call(DeleteRule(id))];
      match reply {
        case Done =>
          log := log + [Toast(Success, DeletedMessage)];
          rules := RemoveById(rules, id);
        case Threw(_) =>
          log := log + [Toast(Error, DeleteFailedMessage)];
      }
    }

    /** `handleToggleRule`: on success the rule with that id is replaced by the server's
        record, in place; on failure the list stays and an error toast says so. */
    method HandleToggleRule(id: int, reply: Reply<Rule>)
      modifies this`rules, this`log
      ensures reply.Ok? ==> rules == ReplaceById(old(rules), id, reply.value) && log == old(log) + [Call(ToggleRule(id))]
      ensures reply.Err? ==> rules == old(rules) && log == old(log) + [Call(ToggleRule(id)), Toast(Error, ToggleFailedMessage)]
    {
      log := log + [Call(ToggleRule(id))];
      match reply {
        case Ok(updated) =>
          rules := ReplaceById(rules, id, updated);
        case Err(_) =>
          log := log + [Toast(Error, ToggleFailedMessage)];
      }
    }
  }

  /** The request `handleSaveRule` sends: an update of the edited rule, or a new rule. */
  function SaveRequest(editing: Option<Rule>, content: string, targetPattern: string): ApiCall {
    match editing
    case Some(rule) => UpdateRule(rule.id, content, targetPattern)
    case None => CreateRule(content, targetPattern)
  }
}
