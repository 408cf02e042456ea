/** The table of user-facing messages for the backend's error codes, and the lookup that
    turns a thrown error into the text of an error toast. */
module ErrorMessages {
  import opened Nullable

  /** The code whose message is the fallback for every error the table does not name. */
  const RuntimeEx: string := "RUNTIME_EX"

  /** `ERROR_MESSAGES`: backend error code to message. */
  const ErrorTable: map<string, string> := map[
    "GITHUB_ACCOUNT_NOT_FOUND" := "GitHub 계정을 찾을 수 없습니다.",
    "PULL_REQUEST_NOT_FOUND" := "Pull Request를 찾을 수 없습니다.",
    "RUNTIME_EX" := "요청 처리 중 오류가 발생했습니다.",
    "OPEN_AI_KEY_NOT_SET" := "OpenAI API 키가 설정되지 않았습니다. 설정에서 키를 등록해주세요.",
    "INVALID_GITHUB_TOKEN" := "GitHub 토큰이 유효하지 않습니다. 다시 로그인해주세요.",
    "SECURITY_VIOLATION" := "보안 검증에 실패했습니다.",
    "GITHUB_API_ERROR" := "GitHub API 호출 중 오류가 발생했습니다.",
    "WEBHOOK_PROCESSING_ERROR" := "웹훅 처리 중 오류가 발생했습니다.",
    "TOKEN_ENCRYPTION_ERROR" := "토큰 암호화 중 오류가 발생했습니다.",
    "WEBHOOK_REGISTRATION_ERROR" := "웹훅 등록에 실패했습니다."
  ]

  /** What a gateway call can throw. An axios error carries `response?.data?.code`, absent
      when there is no response, no body or no code; any other error carries nothing the
      lookup reads. */
  datatype Thrown = AxiosError(code: Option<string>) | OtherError

  /** `getErrorMessage(error)`: the table's message for the code of an axios error whose
      code the table names, and the `RUNTIME_EX` message for everything else. */
  function GetErrorMessage(e: Thrown): (r: string)
    ensures r in ErrorTable.Values && r != ""
    ensures e.AxiosError? && TruthyText(e.code) && e.code.value in ErrorTable ==> r == ErrorTable[e.code.value]
    ensures !(e.AxiosError? && e.code.Some? && e.code.value in ErrorTable) ==> r == ErrorTable[RuntimeEx]
  {
    if e.AxiosError? && TruthyText(e.code) && e.code.value in ErrorTable
    then ErrorTable[e.code.value]
    else ErrorTable[RuntimeEx]
  }

  /** Codes the table does not name all read the fallback, the same text a non-axios
      error reads. */
  lemma UnknownCodesShareFallback(c1: string, c2: string)
    requires c1 !in ErrorTable && c2 !in ErrorTable
    ensures GetErrorMessage(AxiosError(Some(c1))) == GetErrorMessage(AxiosError(Some(c2)))
    ensures GetErrorMessage(AxiosError(Some(c1))) == GetErrorMessage(OtherError)
  {
  }

  // ---------------------------------------------------------------------------------
  // The lookup as written: `ERROR_MESSAGES[errorCode]` is a plain property read on an
  // object literal, which also finds the members every object inherits from
  // `Object.prototype`.
  // ---------------------------------------------------------------------------------

  /** The property names every object literal inherits from `Object.prototype`. */
  const InheritedNames: set<string> := {
    "constructor", "__proto__", "toString", "toLocaleString", "valueOf", "hasOwnProperty",
    "isPrototypeOf", "propertyIsEnumerable", "__defineGetter__", "__defineSetter__",
    "__lookupGetter__", "__lookupSetter__"
  }

  /** What a property read on `ERROR_MESSAGES` yields: an own string value, an inherited
      member (a function, or the prototype object for `__proto__`; truthy, not a string),
      or `undefined`. */
  datatype Property = OwnText(text: string) | InheritedMember(name: string) | Undefined

  /** `ERROR_MESSAGES[code]`. */
  function ReadProperty(code: string): Property {
    if code in ErrorTable then OwnText(ErrorTable[code])
    else if code in InheritedNames then InheritedMember(code)
    else Undefined
  }

  /** `(errorCode && ERROR_MESSAGES[errorCode]) || ERROR_MESSAGES.RUNTIME_EX`, as written:
      never `undefined`; a message of the table, except that an axios error whose code is
      an inherited property name yields that inherited member. */
  function GetErrorMessageAsWritten(e: Thrown): (r: Property)
    ensures r != Undefined
    ensures r.InheritedMember? <==> e.AxiosError? && e.code.Some? && e.code.value in InheritedNames
    ensures r.OwnText? ==> r.text in ErrorTable.Values
  {
    if e.AxiosError? && TruthyText(e.code) && ReadProperty(e.code.value) != Undefined
    then ReadProperty(e.code.value)
    else OwnText(ErrorTable[RuntimeEx])
  }

  /** An axios error whose code is `"toString"` makes the lookup return the inherited
      `Object.prototype.toString` function instead of a message string. */
  lemma InheritedCodeEscapesTable()
    ensures GetErrorMessageAsWritten(AxiosError(Some("toString"))) == InheritedMember("toString")
  {
    assert "toString" !in ErrorTable;
  }

  /** Away from the inherited names the lookup as written and the own-property lookup agree,
      so the correction changes nothing for any other error. */
  lemma AsWrittenAgreesOffPrototype(e: Thrown)
    requires !(e.AxiosError? && e.code.Some? && e.code.value in InheritedNames)
    ensures GetErrorMessageAsWritten(e) == OwnText(GetErrorMessage(e))
  {
  }
}
