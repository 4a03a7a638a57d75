/** What the caption settings make of each action, of an apply result, and of what they are started with: the new
    settings, and the member of user.json that is written. */
module CaptionAnswers {
  import opened Options
  import opened JsonSyntax
  import opened ConfigStore
  import opened Captions
  import OsdMenu

  /** Settings that are not among the known choices fall back, and the on/off state counts as known only when it
      was to be remembered. */
  lemma {:induction false} StartsWithDefaults(c: Config)
    ensures var z := Started(c);
            && z.control == (if c.captionControl == "youtube" then "youtube" else "local")
            && z.kind == (if c.captionType == "auto_first" then "auto_first"
                          else if c.captionType == "author_only" then "author_only"
                          else if c.captionType == "auto_only" then "auto_only"
                          else "author_first")
            && z.languages == (if c.captionLanguages != [] then c.captionLanguages
                               else if c.captionLanguage != "" then [c.captionLanguage]
                               else ["system"])
            && z.remember == c.captionRemember && z.toast == c.captionsToast
            && z.on == c.captionOn && z.known == c.captionRemember
  {
  }

  lemma {:induction false} ActIs(c: Captions, key: string, val: string)
    requires '=' !in key
    ensures Act(c, "cc." + key + "=" + val) == Edit(c, key, val)
  {
    hide Edit;
    var action := "cc." + key + "=" + val;
    assert action == "cc." + (key + "=" + val);
    assert action[..3] == "cc." && action[3..] == key + "=" + val;
    OsdMenu.CutKey(key, val);
  }

  /** The two choices: a known value other than the present one is set and written, and any other does nothing. */
  lemma {:induction false} ChoiceIsMade(c: Captions, v: string)
    ensures Act(c, "cc.control=" + v) == if (v == "local" || v == "youtube") && v != c.control
                                         then Outcome(c.(control := v), Some(Member("caption_control", Str(v))))
                                         else Outcome(c, None)
    ensures Act(c, "cc.type=" + v) == if v in ["author_first", "auto_first", "author_only", "auto_only"] && v != c.kind
                                      then Outcome(c.(kind := v), Some(Member("caption_type", Str(v))))
                                      else Outcome(c, None)
  {
    hide Act, EditLanguages;
    ActIs(c, "control", v);
    ActIs(c, "type", v);
    assert "cc." + "control" + "=" + v == "cc.control=" + v && "cc." + "type" + "=" + v == "cc.type=" + v;
  }

  /** The two switches: "on" turns one on and everything else off, and it is written only when that changes it. */
  lemma {:induction false} SwitchIsSet(c: Captions, v: string)
    ensures Act(c, "cc.remember=" + v) == if c.remember == (v == "on") then Outcome(c, None)
                                          else Outcome(c.(remember := v == "on"),
                                                       Some(Member("caption_remember", Bool(v == "on"))))
    ensures Act(c, "cc.toast=" + v) == if c.toast == (v == "on") then Outcome(c, None)
                                       else Outcome(c.(toast := v == "on"),
                                                    Some(Member("captions_toast", Bool(v == "on"))))
  {
    hide Act, EditLanguages;
    ActIs(c, "remember", v);
    ActIs(c, "toast", v);
    assert "cc." + "remember" + "=" + v == "cc.remember=" + v && "cc." + "toast" + "=" + v == "cc.toast=" + v;
  }

  /** A list edit writes the whole new list if it changes the list, and nothing else is touched. */
  lemma {:induction false} ListIsWritten(c: Captions, key: string, val: string)
    requires key in ["lang.add", "lang.remove", "lang.up", "lang.down"]
    ensures '=' !in key
    ensures var r := Act(c, "cc." + key + "=" + val);
            && r.next == c.(languages := r.next.languages)
            && (r.write.None? ==> r.next == c)
            && (r.write.Some? ==> r.write == Some(Member("caption_languages", StringsValue(r.next.languages))))
  {
    hide Act, StringsValue, IndexOf;
    ActIs(c, key, val);
  }

  /** An apply result that begins "seed_on:" tells that captions are on and "seed_off" that they are off, which is
      written only if it is to be remembered; every other result leaves things as they are. */
  lemma {:induction false} ResultTells(c: Captions, code: string, result: string)
    ensures Seed("seed_on:" + code) == Some(true) && Seed("seed_off") == Some(false)
    ensures Seed(result) == Some(true) ==> |result| >= 8 && result == "seed_on:" + result[8..]
    ensures Seed(result) == Some(false) ==> result == "seed_off"
    ensures forall on: bool ::
              && SetOnTo(c, on).next == c.(on := on, known := true)
              && SetOnTo(c, on).write == if c.remember then Some(Member("caption_on", Bool(on))) else None
  {
    assert ("seed_on:" + code)[..8] == "seed_on:";
    assert "seed_off"[6] == 'f' && "seed_on:"[6] == 'n';
    if Seed(result) == Some(true) {
      assert result == result[..8] + result[8..];
    }
  }
}
