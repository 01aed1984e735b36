/** The registration screen: step 1 sends a verification code to the address, step 2 checks the
    code, step 3 takes the name and password and registers. Its fields follow a Yup schema. */
module Register {
  import opened Wrappers
  import opened Text

  // ---------------------------------------------------------------------------------------------
  // The Yup schema. Yup's own e-mail test is not modelled: callers pass its verdict.

  predicate IsDigit(c: char) {
    '0' <= c <= '9'
  }

  /** `code: string().matches(/^\d+$/).required()`. */
  predicate CodeValid(code: string) {
    code != "" && forall k :: 0 <= k < |code| ==> IsDigit(code[k])
  }

  /** The characters `[^!@#$%^&*()_+=\[\]{};':"\\|,.<>\/?]` excludes from a full name. */
  const NameForbidden: set<char> := {
    '!', '@', '#', '$', '%', '^', '&', '*', '(', ')', '_', '+', '=', '[', ']', '{', '}',
    ';', '\'', ':', '"', '\\', '|', ',', '.', '<', '>', '/', '?'
  }

  /** `fullName: string().matches(/^[^…]*$/).required()`. */
  predicate FullNameValid(name: string) {
    name != "" && forall k :: 0 <= k < |name| ==> name[k] !in NameForbidden
  }

  /** `password: string().min(10).required()`: only the length is checked; the character
      classes named in the error message are not. */
  predicate PasswordValid(password: string) {
    |password| >= 10
  }

  /** `confirmPassword: string().oneOf([ref('password'), null]).required()`. */
  predicate ConfirmValid(confirm: string, password: string) {
    confirm != "" && confirm == password
  }

  /** `email: string().email().required()`, with Yup's e-mail verdict as `emailFormatOk`. */
  predicate EmailValid(email: string, emailFormatOk: bool) {
    email != "" && emailFormatOk
  }

  /** A name with spaces and hyphens passes; one with a dot does not. */
  lemma NameExamples()
    ensures FullNameValid("Nguyễn Văn-An")
    ensures !FullNameValid("Mr. An")
  {
    assert "Mr. An"[2] == '.';
  }

  /** A password of ten lower-case letters passes the schema: no strength rule is enforced. */
  lemma WeakPasswordAccepted()
    ensures PasswordValid("aaaaaaaaaa") && ConfirmValid("aaaaaaaaaa", "aaaaaaaaaa")
  {
  }

  // ---------------------------------------------------------------------------------------------
  // The screen

  /** How the registration request failed: with a list of messages, or with another value. */
  datatype RegisterOutcome = Registered | FailedWithList(messages: seq<string>) | FailedWith(value: string)

  datatype Request =
    | SendCode(email: string)
    | VerifyCode(email: string, code: string)
    | Register(email: string, code: string, fullName: string, password: string, confirmPassword: string)

  const CodeSentText := "Mã xác thực đã được gửi!"
  const SendFailedText := "Không thể gửi mã xác minh."
  const CodeRejectedText := "Mã xác thực không hợp lệ."
  const RegisteredText := "Đăng ký thành công!"

  class RegisterScreen {
    var currentStep: int
    var isLoading: bool
    var message: string
    // the form's values
    var email: string
    var code: string
    var fullName: string
    var password: string
    var confirmPassword: string

    ghost predicate Valid()
      reads this
    {
      1 <= currentStep <= 3
    }

    constructor ()
      ensures Valid() && currentStep == 1 && !isLoading && message == ""
      ensures email == "" && code == "" && fullName == "" && password == "" && confirmPassword == ""
    {
      currentStep, isLoading, message := 1, false, "";
      email, code, fullName, password, confirmPassword := "", "", "", "", "";
    }

    /** Typing into the form. */
    method EditForm(email': string, code': string, fullName': string, password': string, confirmPassword': string)
      modifies this`email, this`code, this`fullName, this`password, this`confirmPassword
      ensures email == email' && code == code' && fullName == fullName'
      ensures password == password' && confirmPassword == confirmPassword'
    {
      email, code, fullName, password, confirmPassword := email', code', fullName', password', confirmPassword';
    }

    /** Step 1's button. `result` is the outcome of the send-code request; `busy` is the loading
        flag while it is awaited. */
    method OnSendVerification(emailFormatOk: bool, result: Outcome) returns (request: Option<Request>, busy: bool)
      requires Valid()
      modifies this`currentStep, this`isLoading, this`message
      ensures Valid()
      ensures !EmailValid(email, emailFormatOk) ==>
        request == None && !busy &&
        currentStep == old(currentStep) && isLoading == old(isLoading) && message == old(message)
      ensures EmailValid(email, emailFormatOk) ==> request == Some(SendCode(email)) && busy && !isLoading
      ensures EmailValid(email, emailFormatOk) && result.Resolved? ==> currentStep == 2 && message == CodeSentText
      ensures EmailValid(email, emailFormatOk) && result.Rejected? ==>
        currentStep == old(currentStep) && message == MessageOr(result.message, SendFailedText)
    {
      request, busy := None, false;
      if !EmailValid(email, emailFormatOk) {
        return;
      }
      isLoading := true;
      message := "";
      busy := isLoading;
      request := Some(SendCode(email));
      if result.Resolved? {
        message := CodeSentText;
        currentStep := 2;
      } else {
        message := MessageOr(result.message, SendFailedText);
      }
      isLoading := false;
    }

    /** Step 2's button. */
    method OnVerifyCode(result: Outcome) returns (request: Option<Request>, busy: bool)
      requires Valid()
      modifies this`currentStep, this`isLoading, this`message
      ensures Valid()
      ensures !CodeValid(code) ==>
        request == None && !busy &&
        currentStep == old(currentStep) && isLoading == old(isLoading) && message == old(message)
      ensures CodeValid(code) ==> request == Some(VerifyCode(email, code)) && busy && !isLoading
      ensures CodeValid(code) && result.Resolved? ==> currentStep == 3 && message == ""
      ensures CodeValid(code) && result.Rejected? ==>
        currentStep == old(currentStep) && message == MessageOr(result.message, CodeRejectedText)
    {
      request, busy := None, false;
      if !CodeValid(code) {
        return;
      }
      isLoading := true;
      message := "";
      busy := isLoading;
      request := Some(VerifyCode(email, code));
      if result.Resolved? {
        currentStep := 3;
      } else {
        message := MessageOr(result.message, CodeRejectedText);
      }
      isLoading := false;
    }

    /** Every rule of the schema, as the form's submit handler checks them before registering. */
    predicate AllFieldsValid(emailFormatOk: bool)
      reads this
    {
      EmailValid(email, emailFormatOk) && CodeValid(code) && FullNameValid(fullName) &&
      PasswordValid(password) && ConfirmValid(confirmPassword, password)
    }

    /** Step 3's button, through the form's submit handler; `toLogin` is the navigation to the
        login screen after a successful registration. */
    method OnRegister(emailFormatOk: bool, result: RegisterOutcome) returns (request: Option<Request>, busy: bool, toLogin: bool)
      requires Valid()
      modifies this`isLoading, this`message
      ensures Valid()
      ensures !AllFieldsValid(emailFormatOk) ==>
        request == None && !busy && !toLogin && isLoading == old(isLoading) && message == old(message)
      ensures AllFieldsValid(emailFormatOk) ==>
        request == Some(Register(email, code, fullName, password, confirmPassword)) && busy && !isLoading &&
        (toLogin <==> result.Registered?) &&
        message == match result
          case Registered => RegisteredText
          case FailedWithList(ms) => Join(ms, '\n')
          case FailedWith(v) => v
    {
      request, busy, toLogin := None, false, false;
      if !AllFieldsValid(emailFormatOk) {
        return;
      }
      isLoading := true;
      message := "";
      busy := isLoading;
      request := Some(Register(email, code, fullName, password, confirmPassword));
      match result {
        case Registered =>
          message := RegisteredText;
          toLogin := true;
        case FailedWithList(ms) =>
          message := Join(ms, '\n');
        case FailedWith(v) =>
          message := v;
      }
      isLoading := false;
    }
  }
}
