/** Entity records, payloads and result types of the insurance canister backend. */
module Types {

  const U64_MAX: int := 0xFFFF_FFFF_FFFF_FFFF
  const U32_MAX: int := 0xFFFF_FFFF

  /** Rust's u64 and u32. */
  type u64 = x: int | 0 <= x <= U64_MAX
  type u32 = x: int | 0 <= x <= U32_MAX

  datatype Option<T> = None | Some(value: T)

  /** The error tags; the formatted `msg` strings are not modelled. */
  datatype Error = NotFound | InvalidOperation

  /** Rust's `Result<T, Error>` as returned by the canister's endpoints. */
  datatype Result<T> = Ok(value: T) | Err(error: Error)

  datatype UserRole = Policyholder | Agent | Administrator

  datatype User = User(
    id: u64,
    username: string,
    email: string,
    role: UserRole,
    createdAt: u64,
    updatedAt: Option<u64>)

  /** The caller-supplied part of a user, for `add_user` and `update_user`. */
  datatype UserPayload = UserPayload(username: string, email: string, role: UserRole)

  datatype LifeInsurancePolicy = LifeInsurancePolicy(
    id: u64,
    policyholderId: u64,
    policyAmount: Option<u64>,
    isActive: bool,
    isClaimed: bool,
    tenureYears: u32,
    createdAt: u64,
    updatedAt: Option<u64>)

  /** The caller-supplied part of a policy, for `add_life_insurance_policy` and
      `update_life_insurance_policy` (the latter ignores `policyholderId`). */
  datatype PolicyPayload = PolicyPayload(policyholderId: u64, policyAmount: Option<u64>, tenureYears: u32)
}
