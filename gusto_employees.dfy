/**
 * URL construction of the payroll client's employee endpoints
 * (gusto/src/employees.rs). The HTTP call each endpoint then makes is not
 * modelled: every builder returns the URL it would request. `encode` stands
 * for `progenitor_support::encode_path`, whose definition is not part of
 * this model; `page` and `per` are the already rendered texts of the f64
 * arguments.
 */
module GustoEmployees {
  import opened QueryString

  /** The `include=` argument: present only for a non-empty list, whose items are joined by single spaces. */
  function IncludeArg(includes: seq<string>): (args: seq<string>)
    ensures |args| == 1 <==> |includes| > 0
    ensures |args| <= 1
    ensures |args| == 1 ==> "include=" <= args[0]
  {
    if |includes| == 0 then [] else ["include=" + Joined(includes, ' ')]
  }

  /** The `terminated=true` argument, present only when filtering on terminated employees. */
  function TerminatedArg(terminated: bool): (args: seq<string>)
    ensures "terminated=true" in args <==> terminated
    ensures args == [] || args == ["terminated=true"]
  {
    if terminated then ["terminated=true"] else []
  }

  /** The query arguments of `get_company_employees`, in the order they are pushed. */
  function CompanyEmployeesArgs(terminated: bool, page: string, per: string, includes: seq<string>): (args: seq<string>)
    ensures "page=" + page in args && "per=" + per in args
    ensures |args| == (if |includes| > 0 then 1 else 0) + 2 + (if terminated then 1 else 0)
  {
    IncludeArg(includes) + ["page=" + page, "per=" + per] + TerminatedArg(terminated)
  }

  /** The query arguments of `get_all_company_employees`, in the order they are pushed. */
  function AllCompanyEmployeesArgs(terminated: bool, per: string, includes: seq<string>): (args: seq<string>)
    ensures "per=" + per in args
    ensures |args| == (if |includes| > 0 then 1 else 0) + 1 + (if terminated then 1 else 0)
  {
    IncludeArg(includes) + ["per=" + per] + TerminatedArg(terminated)
  }

  /** `get_employees`: the employee URL, a `?`, then the includes argument or nothing at all. */
  method GetEmployeesUrl(encode: string -> string, employeeIdOrUuid: string, includes: seq<string>)
    returns (url: string)
    ensures |includes| == 0 ==> url == "/v1/employees/" + encode(employeeIdOrUuid) + "?"
    ensures |includes| > 0 ==>
      url == "/v1/employees/" + encode(employeeIdOrUuid) + "?include=" + Joined(includes, ' ')
  {
    var queryArgs: seq<string> := [];
    if |includes| > 0 {
      queryArgs := queryArgs + ["include=" + Joined(includes, ' ')];
    }
    var query := JoinQuery(queryArgs);
    url := "/v1/employees/" + encode(employeeIdOrUuid) + "?" + query;
  }

  /** `get_company_employees`: the company's employee URL with its four kinds of argument joined by `&`. */
  method GetCompanyEmployeesUrl(
    encode: string -> string, companyIdOrUuid: string,
    terminated: bool, page: string, per: string, includes: seq<string>)
    returns (url: string)
    ensures url == CompanyEmployeesUrl(encode, companyIdOrUuid) + "?"
                   + Joined(CompanyEmployeesArgs(terminated, page, per, includes), '&')
  {
    var queryArgs: seq<string> := [];
    if |includes| > 0 {
      queryArgs := queryArgs + ["include=" + Joined(includes, ' ')];
    }
    queryArgs := queryArgs + ["page=" + page];
    queryArgs := queryArgs + ["per=" + per];
    if terminated {
      queryArgs := queryArgs + ["terminated=true"];
    }
    assert queryArgs == CompanyEmployeesArgs(terminated, page, per, includes);
    var query := JoinQuery(queryArgs);
    url := "/v1/companies/" + encode(companyIdOrUuid) + "/employees?" + query;
    assert url == CompanyEmployeesUrl(encode, companyIdOrUuid) + "?" + query;
  }

  /** `get_all_company_employees`: as above without a page argument (the client walks the pages). */
  method GetAllCompanyEmployeesUrl(
    encode: string -> string, companyIdOrUuid: string,
    terminated: bool, per: string, includes: seq<string>)
    returns (url: string)
    ensures url == CompanyEmployeesUrl(encode, companyIdOrUuid) + "?"
                   + Joined(AllCompanyEmployeesArgs(terminated, per, includes), '&')
  {
    var queryArgs: seq<string> := [];
    if |includes| > 0 {
      queryArgs := queryArgs + ["include=" + Joined(includes, ' ')];
    }
    queryArgs := queryArgs + ["per=" + per];
    if terminated {
      queryArgs := queryArgs + ["terminated=true"];
    }
    assert queryArgs == AllCompanyEmployeesArgs(terminated, per, includes);
    var query := JoinQuery(queryArgs);
    url := "/v1/companies/" + encode(companyIdOrUuid) + "/employees?" + query;
    assert url == CompanyEmployeesUrl(encode, companyIdOrUuid) + "?" + query;
  }

  /** `put_employees`: the single-employee URL, which carries no query. */
  function EmployeeUrl(encode: string -> string, employeeIdOrUuid: string): (url: string)
    ensures ('?' in url) <==> ('?' in encode(employeeIdOrUuid))
    ensures |url| == |"/v1/employees/"| + |encode(employeeIdOrUuid)|
  {
    "/v1/employees/" + encode(employeeIdOrUuid)
  }

  /** `post_employees`, and the path of both company-employee listings. */
  function CompanyEmployeesUrl(encode: string -> string, companyIdOrUuid: string): (url: string)
    ensures ('?' in url) <==> ('?' in encode(companyIdOrUuid))
    ensures |url| >= 10 && url[|url| - 10..] == "/employees"
  {
    "/v1/companies/" + encode(companyIdOrUuid) + "/employees"
  }

  /** `get_employees_employee_id_home_address` and `put_employees_employee_id_home_address`. */
  function HomeAddressUrl(encode: string -> string, employeeId: string): (url: string)
    ensures ('?' in url) <==> ('?' in encode(employeeId))
    ensures url == EmployeeUrl(encode, employeeId) + "/home_address"
  {
    "/v1/employees/" + encode(employeeId) + "/home_address"
  }

  /** `prefix + x + suffix` determines `x`. */
  lemma Framed(prefix: string, x: string, y: string, suffix: string)
    requires prefix + x + suffix == prefix + y + suffix
    ensures x == y
  {
    var l := prefix + x + suffix;
    assert |x| == |y|;
    assert x == l[|prefix|..|prefix| + |x|];
    assert y == (prefix + y + suffix)[|prefix|..|prefix| + |y|];
  }

  /** The body-carrying URLs are determined by, and determine, the encoded id. */
  lemma UrlsDetermineEncodedId(encode: string -> string, a: string, b: string)
    ensures EmployeeUrl(encode, a) == EmployeeUrl(encode, b) <==> encode(a) == encode(b)
    ensures CompanyEmployeesUrl(encode, a) == CompanyEmployeesUrl(encode, b) <==> encode(a) == encode(b)
    ensures HomeAddressUrl(encode, a) == HomeAddressUrl(encode, b) <==> encode(a) == encode(b)
  {
    if EmployeeUrl(encode, a) == EmployeeUrl(encode, b) {
      Framed("/v1/employees/", encode(a), encode(b), "");
    }
    if CompanyEmployeesUrl(encode, a) == CompanyEmployeesUrl(encode, b) {
      Framed("/v1/companies/", encode(a), encode(b), "/employees");
    }
    if HomeAddressUrl(encode, a) == HomeAddressUrl(encode, b) {
      Framed("/v1/employees/", encode(a), encode(b), "/home_address");
    }
  }

  /** Field `i` of a list of `key=value` arguments has key `key`. */
  predicate HasKey(args: seq<string>, i: int, key: string)
  {
    0 <= i < |args| && key + "=" <= args[i]
  }

  /** `get_company_employees` always sends page and per, in the order includes, page, per, terminated. */
  lemma CompanyArgsOrder(terminated: bool, page: string, per: string, includes: seq<string>)
    ensures var args := CompanyEmployeesArgs(terminated, page, per, includes);
      var k := if |includes| > 0 then 1 else 0;
      && (|includes| > 0 ==> HasKey(args, 0, "include"))
      && args[k] == "page=" + page && HasKey(args, k, "page")
      && args[k + 1] == "per=" + per && HasKey(args, k + 1, "per")
      && |args| == k + 2 + (if terminated then 1 else 0)
      && (terminated ==> args[k + 2] == "terminated=true")
  {
  }

  /** `terminated=true` is sent exactly when filtering on it; `terminated=false` is never sent. */
  lemma TerminatedOnlyWhenTrue(terminated: bool, page: string, per: string, includes: seq<string>)
    ensures "terminated=true" in CompanyEmployeesArgs(terminated, page, per, includes) <==> terminated
    ensures "terminated=true" in AllCompanyEmployeesArgs(terminated, per, includes) <==> terminated
    ensures "terminated=false" !in CompanyEmployeesArgs(terminated, page, per, includes)
    ensures "terminated=false" !in AllCompanyEmployeesArgs(terminated, per, includes)
  {
    if |includes| > 0 {
      DiffersAt("include=" + Joined(includes, ' '), "terminated=true", 0);
      DiffersAt("include=" + Joined(includes, ' '), "terminated=false", 0);
    }
    DiffersAt("page=" + page, "terminated=true", 0);
    DiffersAt("page=" + page, "terminated=false", 0);
    DiffersAt("per=" + per, "terminated=true", 0);
    DiffersAt("per=" + per, "terminated=false", 0);
    DiffersAt("terminated=true", "terminated=false", 11);
  }

  /** Two strings that differ at a position within both are unequal and neither is a prefix of the other. */
  lemma DiffersAt(s: string, t: string, i: nat)
    requires i < |s| && i < |t| && s[i] != t[i]
    ensures s != t && !(t <= s) && !(s <= t)
  {
  }

  /** `get_all_company_employees` never sends a page argument, and always sends per. */
  lemma AllCompanyArgsHaveNoPage(terminated: bool, per: string, includes: seq<string>)
    ensures forall i :: 0 <= i < |AllCompanyEmployeesArgs(terminated, per, includes)| ==>
      !HasKey(AllCompanyEmployeesArgs(terminated, per, includes), i, "page")
    ensures "per=" + per in AllCompanyEmployeesArgs(terminated, per, includes)
  {
    var args := AllCompanyEmployeesArgs(terminated, per, includes);
    forall i | 0 <= i < |args| ensures !HasKey(args, i, "page") {
      if |includes| > 0 && i == 0 {
        DiffersAt(args[i], "page=", 0);
      } else if args[i] == "per=" + per {
        DiffersAt(args[i], "page=", 1);
      } else {
        assert args[i] == "terminated=true";
        DiffersAt(args[i], "page=", 0);
      }
    }
  }

  /** When no argument text holds `&`, the query's `&`-separated fields are exactly the pushed arguments. */
  lemma CompanyQueryFields(terminated: bool, page: string, per: string, includes: seq<string>)
    requires '&' !in Joined(includes, ' ') && '&' !in page && '&' !in per
    ensures Split(Joined(CompanyEmployeesArgs(terminated, page, per, includes), '&'), '&')
            == CompanyEmployeesArgs(terminated, page, per, includes)
    ensures Split(Joined(AllCompanyEmployeesArgs(terminated, per, includes), '&'), '&')
            == AllCompanyEmployeesArgs(terminated, per, includes)
  {
    var inc, term := IncludeArg(includes), TerminatedArg(terminated);
    assert Free(inc, '&') by {
      if |includes| > 0 {
        assert '&' !in "include=" + Joined(includes, ' ');
      }
    }
    assert '&' !in "page=" + page && '&' !in "per=" + per;
    FieldsOfThree(inc, ["page=" + page, "per=" + per], term);
    FieldsOfThree(inc, ["per=" + per], term);
  }

  /** The include, middle and terminated groups of a listing split back out of its query. */
  lemma FieldsOfThree(inc: seq<string>, middle: seq<string>, term: seq<string>)
    requires |middle| > 0
    requires Free(inc, '&') && Free(middle, '&') && Free(term, '&')
    ensures Split(Joined(inc + middle + term, '&'), '&') == inc + middle + term
  {
    FreeConcat(inc, middle, '&');
    FreeConcat(inc + middle, term, '&');
    SplitJoined(inc + middle + term, '&');
  }

  /** Two lists of separator-free parts join into one. */
  lemma FreeConcat(a: seq<string>, b: seq<string>, sep: char)
    requires Free(a, sep) && Free(b, sep)
    ensures Free(a + b, sep)
  {
    forall i | 0 <= i < |a + b|
      ensures sep !in (a + b)[i]
    {
      if i >= |a| {
        assert (a + b)[i] == b[i - |a|];
      }
    }
  }
}
