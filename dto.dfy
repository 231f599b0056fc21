/** The request body of `POST /transactions` and the validation the global
    pipe applies before the body reaches the service. */
module Dto {
  import opened Wrappers
  import opened Json

  /** The validated request: four non-empty strings and a non-empty list of strings. */
  datatype CreateTransactionDto = CreateTransactionDto(
    chainId: string,
    contractAddress: string,
    methodName: string,
    args: seq<string>,
    userAddress: string)

  /** The body's property names, in the order the class declares them. */
  const StringProperties: seq<string> := ["chainId", "contractAddress", "method", "userAddress"]
  const ArgsProperty := "args"

  /** `@IsString() @IsNotEmpty()`: a string other than "". */
  predicate NonEmptyString(v: Option<Json>) {
    v.Some? && v.value.JStr? && v.value.s != ""
  }

  predicate AllStrings(items: seq<Json>) {
    forall i :: 0 <= i < |items| ==> items[i].JStr?
  }

  /** `@IsArray() @ArrayNotEmpty() @IsString({ each: true })`. */
  predicate ArgsOk(v: Option<Json>) {
    v.Some? && v.value.JArr? && v.value.items != [] && AllStrings(v.value.items)
  }

  /** The strings of an array whose every element is a string. */
  function Strings(items: seq<Json>): (r: seq<string>)
    requires AllStrings(items)
    ensures |r| == |items|
    ensures forall i :: 0 <= i < |r| ==> items[i] == JStr(r[i])
  {
    if items == [] then [] else [items[0].s] + Strings(items[1..])
  }

  /** The names of the properties whose constraints `body` fails, in declaration order. */
  function FailingProperties(body: Json): (r: seq<string>)
    ensures forall p :: p in r <==>
              (p in StringProperties && !NonEmptyString(Get(body, p)))
              || (p == ArgsProperty && !ArgsOk(Get(body, p)))
  {
    (if NonEmptyString(Get(body, "chainId")) then [] else ["chainId"])
    + (if NonEmptyString(Get(body, "contractAddress")) then [] else ["contractAddress"])
    + (if NonEmptyString(Get(body, "method")) then [] else ["method"])
    + (if ArgsOk(Get(body, ArgsProperty)) then [] else [ArgsProperty])
    + (if NonEmptyString(Get(body, "userAddress")) then [] else ["userAddress"])
  }

  /** The pipe: every constraint is checked and all failures are reported
      (the 400 response); only the five declared properties are looked at. */
  function ValidateBody(body: Json): (r: Result<CreateTransactionDto, seq<string>>)
    ensures r.Ok? <==>
              (body.JObj?
               && NonEmptyString(Get(body, "chainId")) && NonEmptyString(Get(body, "contractAddress"))
               && NonEmptyString(Get(body, "method")) && NonEmptyString(Get(body, "userAddress"))
               && ArgsOk(Get(body, ArgsProperty)))
    ensures r.Ok? ==>
              Get(body, "chainId") == Some(JStr(r.value.chainId))
              && Get(body, "contractAddress") == Some(JStr(r.value.contractAddress))
              && Get(body, "method") == Some(JStr(r.value.methodName))
              && Get(body, "userAddress") == Some(JStr(r.value.userAddress))
              && Get(body, ArgsProperty) == Some(JArr(JStrings(r.value.args)))
    ensures r.Err? ==> r.error != []
    ensures r.Err? && body.JObj? ==> r.error == FailingProperties(body)
  {
    if !body.JObj? then Err(StringProperties + [ArgsProperty])
    else
      var failing := FailingProperties(body);
      if failing != [] then Err(failing)
      else
        assert "chainId" !in failing && "contractAddress" !in failing && "method" !in failing;
        assert "userAddress" !in failing && ArgsProperty !in failing;
        var items := Get(body, ArgsProperty).value.items;
        var args := Strings(items);
        assert JStrings(args) == items;
        Ok(CreateTransactionDto(Get(body, "chainId").value.s, Get(body, "contractAddress").value.s,
                                Get(body, "method").value.s, args, Get(body, "userAddress").value.s))
  }

  /** The body a client sends for `dto`. */
  function BodyOf(dto: CreateTransactionDto): Json {
    JObj(map[
      "chainId" := JStr(dto.chainId),
      "contractAddress" := JStr(dto.contractAddress),
      "method" := JStr(dto.methodName),
      "args" := JArr(JStrings(dto.args)),
      "userAddress" := JStr(dto.userAddress)])
  }

  /** What the constraints demand of a request. */
  predicate WellFormed(dto: CreateTransactionDto) {
    dto.chainId != "" && dto.contractAddress != "" && dto.methodName != ""
    && dto.userAddress != "" && dto.args != []
  }

  /** A request passes the pipe unchanged exactly when it meets the constraints. */
  lemma ValidateBodyOf(dto: CreateTransactionDto)
    ensures ValidateBody(BodyOf(dto)).Ok? <==> WellFormed(dto)
    ensures WellFormed(dto) ==> ValidateBody(BodyOf(dto)) == Ok(dto)
  {
    var body := BodyOf(dto);
    assert Get(body, "chainId") == Some(JStr(dto.chainId));
    assert Get(body, "contractAddress") == Some(JStr(dto.contractAddress));
    assert Get(body, "method") == Some(JStr(dto.methodName));
    assert Get(body, "userAddress") == Some(JStr(dto.userAddress));
    assert Get(body, ArgsProperty) == Some(JArr(JStrings(dto.args)));
    if WellFormed(dto) {
      var r := ValidateBody(body);
      assert r.Ok?;
      assert |r.value.args| == |dto.args|;
      assert forall i :: 0 <= i < |dto.args| ==> JStr(r.value.args[i]) == JStr(dto.args[i]);
      assert r.value.args == dto.args;
    }
  }

  /** The pipe does not look at the chain: a request for a chain no provider
      serves is accepted. */
  lemma UnsupportedChainPasses()
    ensures ValidateBody(BodyOf(CreateTransactionDto("0x1", "0xC0", "transfer", ["0xReceiver"], "0xU"))).Ok?
  {
    ValidateBodyOf(CreateTransactionDto("0x1", "0xC0", "transfer", ["0xReceiver"], "0xU"));
  }
}
