/** The enumerations and records of the portal's database schema that the
    pages and stores read: user roles, service levels, the signed-in user,
    the user's profile and tenant. */
module Types {
  import opened Common

  datatype UserRole = SuperAdmin | Admin | Csa | SeniorCsa | Customer | Driver {
    /** The role's database spelling. */
    function Name(): string {
      match this
      case SuperAdmin => "super_admin"
      case Admin => "admin"
      case Csa => "csa"
      case SeniorCsa => "senior_csa"
      case Customer => "customer"
      case Driver => "driver"
    }
  }

  /** The staff roles that may use the admin area: super admin, admin and
      the two customer-service roles. */
  predicate IsStaffRole(r: UserRole) {
    r == SuperAdmin || r == Admin || r == Csa || r == SeniorCsa
  }

  /** The `isAdmin` test on the signed-in profile: a profile with a staff
      role. */
  predicate IsStaff(profile: Option<Profile>) {
    profile.Some? && IsStaffRole(profile.value.role)
  }

  datatype ServiceLevel = Standard | SameDay | Vip {
    function Name(): string {
      match this
      case Standard => "standard"
      case SameDay => "same_day"
      case Vip => "vip"
    }
  }

  /** The backend's authenticated user; only its identity matters here. */
  datatype User = User(id: string, email: string)

  datatype Tenant = Tenant(id: string, name: string)

  /** A row of the user profile table (the columns the pages use). */
  datatype Profile = Profile(
    id: string,
    tenantId: string,
    email: string,
    fullName: string,
    phone: Option<string>,
    role: UserRole,
    companyName: Option<string>)
}
