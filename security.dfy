/** The parts of the platform Security framework this core refers to: the
    named constants (criterion keys, class tags and match-limit tags) and the
    status codes of the credential store. Their concrete values belong to the
    framework, so the model keeps them abstract: a `Platform` supplies a name
    for every constant and the two status codes, and lemmas that need the
    constants to be different say so with `NamesDistinct`. */
module Security {

  /** The framework constants the core uses. */
  datatype SecConst =
    // criterion keys
    | KSecClass
    | KSecAttrAccount
    | KSecValueData
    | KSecMatchLimit
    | KSecReturnAttributes
    | KSecReturnData
    // match-limit tags
    | KSecMatchLimitOne
    | KSecMatchLimitAll
    // class tags
    | KSecClassInternetPassword
    | KSecClassGenericPassword
    | KSecClassCertificate
    | KSecClassKey
    | KSecClassIdentity

  /** The store's status code: a 32-bit signed integer. */
  type OSStatus = x: int | -0x8000_0000 <= x < 0x8000_0000

  /** The framework's values for the constants: `name(c)` is the string the
      constant `c` stands for once bridged to a dictionary key or value. */
  datatype Platform = Platform(
    name: SecConst -> string,
    errSecSuccess: OSStatus,
    errSecItemNotFound: OSStatus)
  {
    /** Different constants have different string values. */
    ghost predicate NamesDistinct() {
      forall a, b :: name(a) == name(b) ==> a == b
    }

    /** The two status codes the result interpreter tells apart differ. */
    predicate StatusesDistinct() {
      errSecSuccess != errSecItemNotFound
    }
  }

}
