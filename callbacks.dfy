/** Callback data: how keyboards.py writes it into buttons and how the
    handlers read it back (`int(data.split("_")[-1])`, `data.split(":")`). */
module Callbacks {
  import opened Wrappers
  import opened PyText

  /** f"{stem}_{n}", e.g. `manage_user_{user_id}` or `admin_users_page_{page}`. */
  function WithId(stem: string, n: int): string {
    stem + "_" + IntToString(n)
  }

  /** The data starts with the stem and an underscore, and the rest is the
      number in decimal, with a '-' only when it is negative. */
  lemma WithIdShape(stem: string, n: int)
    ensures StartsWith(WithId(stem, n), stem + "_")
    ensures var tail := WithId(stem, n)[|stem| + 1..];
      && tail == IntToString(n)
      && (n >= 0 ==> |tail| >= 1 && AllDigits(tail))
      && (n < 0 ==> |tail| >= 2 && tail[0] == '-' && AllDigits(tail[1..]))
  {
    assert WithId(stem, n)[..|stem| + 1] == stem + "_";
  }

  /** `int(data.split("_")[-1])`; `None` where int() raises ValueError. */
  function TrailingId(data: string): (r: Option<int>)
    ensures '_' !in data ==> r == ParseInt(data)
    ensures r.Some? ==> exists k :: 0 <= k <= |data| && ParseInt(data[k..]) == r && '_' !in data[k..]
  {
    var tail := LastSegment(data, '_');
    assert data[|data| - |tail|..] == tail;
    ParseInt(tail)
  }

  /** Every `{stem}_{n}` callback is read back as n, whatever the stem holds
      (stems such as "admin_users_page" contain '_' themselves). */
  lemma TrailingIdRoundTrip(stem: string, n: int)
    ensures TrailingId(WithId(stem, n)) == Some(n)
  {
    NoSeparatorInNumber(n, '_');
    assert WithId(stem, n) == stem + ['_'] + IntToString(n);
    LastSegmentAfter(stem, IntToString(n), '_');
    ParseIntToString(n);
  }

  /** f"delete_config:{config_id}:{user_id}" */
  function DeleteConfigData(configId: int, userId: int): string {
    "delete_config:" + IntToString(configId) + ":" + IntToString(userId)
  }

  /** `_, config_id, user_id = data.split(":")` followed by `int` of both;
      the unpacking raises unless there are exactly three pieces. */
  function DeleteConfigIds(data: string): (r: Option<(int, int)>)
    ensures |Split(data, ':')| != 3 ==> r.None?
    ensures r.Some? ==> ParseInt(Split(data, ':')[1]) == Some(r.value.0)
                        && ParseInt(Split(data, ':')[2]) == Some(r.value.1)
  {
    var parts := Split(data, ':');
    if |parts| != 3 then None
    else
      match (ParseInt(parts[1]), ParseInt(parts[2]))
      case (Some(c), Some(u)) => Some((c, u))
      case _ => None
  }

  lemma SplitThree(a: string, b: string, c: string, sep: char)
    requires sep !in a && sep !in b && sep !in c
    ensures Split(a + [sep] + b + [sep] + c, sep) == [a, b, c]
  {
    SplitWithoutSeparator(a, sep);
    SplitAppend(a, b, sep);
    SplitAppend(a + [sep] + b, c, sep);
  }

  /** The delete-config button is read back as the config id and the owner id. */
  lemma DeleteConfigRoundTrip(configId: int, userId: int)
    ensures DeleteConfigIds(DeleteConfigData(configId, userId)) == Some((configId, userId))
  {
    var c, u := IntToString(configId), IntToString(userId);
    NoSeparatorInNumber(configId, ':');
    NoSeparatorInNumber(userId, ':');
    var stem := "delete_config";
    assert ':' !in stem;
    assert DeleteConfigData(configId, userId) == stem + [':'] + c + [':'] + u;
    SplitThree(stem, c, u, ':');
    ParseIntToString(configId);
    ParseIntToString(userId);
  }

  /** `data.split("_")[-1]` in `process_set_language`: the code is taken as
      it comes, without validation. */
  function LanguageCode(data: string): (code: string)
    ensures '_' !in code
    ensures |code| <= |data| && data[|data| - |code|..] == code
  {
    LastSegment(data, '_')
  }

  /** `set_lang_{code}` is read back as code when the code has no '_'. */
  lemma LanguageCodeRoundTrip(code: string)
    requires '_' !in code
    ensures LanguageCode("set_lang_" + code) == code
  {
    assert "set_lang_" + code == "set_lang" + ['_'] + code;
    LastSegmentAfter("set_lang", code, '_');
  }

  /** A code with '_' in it is cut to its last piece: "set_lang_pt_BR" sets "BR". */
  lemma LanguageCodeIsNotValidated()
    ensures LanguageCode("set_lang_pt_BR") == "BR"
  {
    assert "set_lang_pt_BR" == "set_lang_pt" + ['_'] + "BR";
    LastSegmentAfter("set_lang_pt", "BR", '_');
  }
}
