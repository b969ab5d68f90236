/** `getProjectResponse`: the fixed recommendation record for each project type. The
    user's text is passed to it in the controller but never read, so it is not a parameter
    here. */
module Templates {
  import opened Classifier

  /** The array the controller builds: one text per paragraph section and one list per
      list section. */
  datatype ResponseData = ResponseData(
    advice: string,
    duration: string,
    features: seq<string>,
    technologies: seq<string>,
    budget: string,
    terms: seq<string>,
    summary: string,
    questions: seq<string>)

  /** The record for a project type: the `switch` on `$project_type`. Every record has ten
      features, six technologies, six terms and five questions. */
  function Template(c: Category): (r: ResponseData)
    ensures |r.features| == 10 && |r.technologies| == 6
    ensures |r.terms| == 6 && |r.questions| == 5
  {
    match c
    case StudentExamSystem => StudentExamTemplate
    case InventorySystem => InventoryTemplate
    case EcommerceSystem => EcommerceTemplate
    case _ => DefaultTemplate
  }

  /** There is no "blog_system" case: a blog request gets the same record as a general one. */
  lemma BlogUsesDefault()
    ensures Template(BlogSystem) == Template(General) == DefaultTemplate
  {
  }

  /** The "student_exam_system" case. */
  const StudentExamTemplate: ResponseData := ResponseData(
      advice := "Excellent choice! A student exam system is crucial for modern educational institutions. Our recommendation is to prioritize data security, user experience, and scalability from the start.",
      duration := "📅 Development Timeline: 4-8 weeks (including testing and deployment)",
      features := [
        "🔐 Secure user authentication (students, teachers, administrators)",
        "📚 Comprehensive student profile management",
        "📋 Advanced exam scheduling with automated reminders",
        "🧠 Intelligent question bank with categorization",
        "⚡ Real-time auto-grading and result calculation",
        "📊 Interactive dashboards and performance analytics",
        "📱 Mobile-responsive design for all devices",
        "💾 Automated backups and data export capabilities",
        "🔍 Advanced search and filtering system",
        "📧 Integration with email/SMS notification systems"
      ],
      technologies := [
        "Backend: Laravel 12.x with PHP 8.3+",
        "Frontend: React.js with Tailwind CSS (via Laravel Breeze)",
        "Database: MySQL 8.0 with Redis caching",
        "Mobile: Flutter 3.x for native iOS/Android apps",
        "Deployment: Laravel Forge with AWS or DigitalOcean",
        "Testing: PHPUnit with Laravel Dusk for E2E testing"
      ],
      budget := "💰 Investment Range: $1,200 - $3,500<br><small>(Based on features and team size - includes 3 months support)</small>",
      terms := [
        "💳 Payment: 40% upfront, 30% at milestone delivery, 30% on launch",
        "🔄 Revisions: 3 rounds of revisions included",
        "⏰ Timeline: Fixed delivery date with progress tracking",
        "📜 Ownership: Full source code ownership upon final payment",
        "🔒 Security: GDPR compliant with data encryption",
        "📞 Support: 90 days free technical support post-launch"
      ],
      summary := "A comprehensive student exam system will revolutionize your institution's assessment process. Our Laravel + React solution ensures scalability, security, and exceptional user experience.",
      questions := [
        "🎯 What specific assessment types do you need to support?",
        "📊 Do you require integration with existing student information systems?",
        "💻 Would you prefer a web-only solution or mobile apps as well?",
        "🕒 What is your target launch date?",
        "💼 Do you need ongoing maintenance and support services?"
      ])

  /** The "inventory_system" case. */
  const InventoryTemplate: ResponseData := ResponseData(
      advice := "Inventory management is the backbone of efficient operations. We recommend implementing real-time tracking and automated alerts to minimize stock discrepancies.",
      duration := "📅 Development Timeline: 6-10 weeks (including warehouse integration)",
      features := [
        "📦 Complete product catalog with multi-media support",
        "📊 Real-time stock level monitoring with critical alerts",
        "📋 Automated purchase order generation",
        "💳 Integrated sales and POS system",
        "📱 Barcode and QR code scanning capabilities",
        "📈 Advanced analytics and forecasting tools",
        "🏢 Multi-warehouse and location management",
        "🔐 Role-based access control for different users",
        "📊 Customizable reporting and export functions",
        "⚡ API integration for third-party systems"
      ],
      technologies := [
        "Backend: Laravel 12.x with Queue system for background jobs",
        "Frontend: Vue.js 3.x with Composition API",
        "Database: PostgreSQL with TimescaleDB extension",
        "Mobile: React Native with offline-first architecture",
        "Hardware: Barcode scanner SDK integration",
        "Real-time: Laravel Echo with Pusher WebSockets"
      ],
      budget := "💰 Investment Range: $2,000 - $5,000<br><small>(Includes hardware integration and 6 months support)</small>",
      terms := [
        "💳 Payment: 30% upfront, 40% at beta, 30% on production",
        "🔄 Revisions: Unlimited minor changes during development",
        "⏰ Timeline: Agile development with bi-weekly sprints",
        "📜 Ownership: Complete codebase transfer on completion",
        "🔒 Security: PCI DSS compliant for payment processing",
        "📞 Support: 6 months priority support included"
      ],
      summary := "Transform your inventory operations with our comprehensive management system. Real-time tracking and intelligent automation will optimize your supply chain efficiency.",
      questions := [
        "📦 What types of products do you need to track?",
        "🏢 Do you operate multiple warehouse locations?",
        "📱 Do you need mobile scanning capabilities for staff?",
        "💻 Are there existing systems that need integration?",
        "📊 What key performance indicators matter most to you?"
      ])

  /** The "ecommerce_system" case. */
  const EcommerceTemplate: ResponseData := ResponseData(
      advice := "E-commerce success depends on conversion rates and customer experience. We recommend focusing on mobile-first design and seamless checkout flows.",
      duration := "📅 Development Timeline: 8-14 weeks (including payment gateway setup)",
      features := [
        "🛍️ Advanced product catalog with variant support",
        "🛒 Intelligent shopping cart with abandoned cart recovery",
        "💳 Multiple payment gateway integrations (Stripe, PayPal, etc.)",
        "🚚 Real-time shipping calculation and tracking",
        "⭐ Customer review and rating system",
        "🔍 Advanced search with autocomplete and filters",
        "📧 Marketing automation and email campaigns",
        "📊 Complete analytics and conversion tracking",
        "🔐 Enterprise-grade security and SSL encryption",
        "📱 Progressive Web App (PWA) capabilities"
      ],
      technologies := [
        "Backend: Laravel 12.x with Laravel Cashier",
        "Frontend: Next.js 14 with App Router",
        "Database: MySQL with Elasticsearch for search",
        "Payments: Stripe Connect with fraud detection",
        "CDN: Cloudflare for global content delivery",
        "Analytics: Google Analytics 4 integration"
      ],
      budget := "💰 Investment Range: $3,500 - $8,000<br><small>(Scalable pricing based on expected monthly revenue)</small>",
      terms := [
        "💳 Payment: 25% upfront, 50% at soft launch, 25% final",
        "🔄 Revisions: A/B testing included for key pages",
        "⏰ Timeline: Phased rollout with MVP in 6 weeks",
        "📜 Ownership: Full ownership with source code escrow",
        "🔒 Security: SOC 2 Type II compliant architecture",
        "📞 Support: 12 months dedicated account management"
      ],
      summary := "Launch a high-converting e-commerce platform that scales with your business. Our solution combines cutting-edge technology with proven UX principles for maximum ROI.",
      questions := [
        "🛍️ What is your target average order value?",
        "🌍 Do you plan international expansion?",
        "💳 Which payment methods are essential for your customers?",
        "📱 Do you need a mobile app in addition to web?",
        "📈 What are your key performance metrics for success?"
      ])

  /** The `default` case, taken by "general" and by "blog_system", which has no case of its own. */
  const DefaultTemplate: ResponseData := ResponseData(
      advice := "Based on your description, this appears to be a custom software solution. To provide more specific recommendations, please include details about your industry, target users, and key objectives.",
      duration := "📅 Development Timeline: 4-12 weeks (custom assessment required)",
      features := [
        "👥 User authentication and role management",
        "📊 Data management with full CRUD operations",
        "📱 Fully responsive design across all devices",
        "📈 Built-in analytics and reporting tools",
        "🔔 Real-time notifications and alerts",
        "🔍 Advanced search and filtering capabilities",
        "🔐 Enterprise-grade security implementation",
        "📱 Mobile-first responsive architecture",
        "⚡ Performance optimization and caching",
        "🔌 API-ready architecture for future integrations"
      ],
      technologies := [
        "Backend: Laravel 12.x (PHP 8.3+)",
        "Frontend: Modern JavaScript framework (React/Vue)",
        "Database: MySQL/PostgreSQL with Redis caching",
        "API: RESTful APIs with Laravel Sanctum",
        "Deployment: Docker containers with CI/CD pipeline",
        "Testing: Comprehensive unit and integration tests"
      ],
      budget := "💰 Investment Range: $1,000 - $6,000<br><small>(Preliminary estimate - detailed quote after requirements analysis)</small>",
      terms := [
        "💳 Payment: Flexible terms based on project scope",
        "🔄 Revisions: Iterative development with client feedback",
        "⏰ Timeline: Agile methodology with sprint planning",
        "📜 Ownership: Full transfer upon project completion",
        "🔒 Security: Industry-standard security practices",
        "📞 Support: 60 days free support post-launch"
      ],
      summary := "We're excited about your project vision! Our team specializes in custom software solutions that deliver measurable business value. Let's schedule a detailed requirements discussion.",
      questions := [
        "🎯 What specific business problem are you trying to solve?",
        "👥 Who are your primary end users and stakeholders?",
        "📊 What key metrics will define project success?",
        "💻 Do you have existing systems that need integration?",
        "🕒 What is your ideal timeline for project completion?"
      ])
}
